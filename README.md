# Scout roadmap pipeline, modelled in Dafny

This project models the part of the Scout career-roadmap backend that turns a request
into a stored learning roadmap. It covers:

- **The roadmap engine** (`ScoutClient`). It renders the generation prompt from the
  skills and preferences, strips a Markdown fence from the model's reply, decodes the
  reply, and assembles the stored document. On update it forces `id` and
  `updated_at` onto the decoded object.
- **The roadmap routes**: resolving the owner from the `Authorization` header,
  generate, get, update and list. These are methods over a `Store` object and a
  `Cache` object. The invariant they all keep is *coherence*: every cached
  `roadmap:<id>` is the JSON text of `store[id]`, and every stored document carries
  its own key as `id`.
- **The in-memory cache** (mock `RedisClient`) and **the in-memory store** (mock
  `SupabaseMCPClient`). Both are classes whose dictionaries are updated in place.
  The real-mode rule, under which backend errors turn into default answers, is
  modelled as functions over the outcome of the backend call.
- **Login** (get-or-create of the user record, then the token) and `get_current_user`.
- **The request and response schemas**: datatypes, enum parsers with round-trips,
  range predicates, and pydantic's `.dict()` as functions.
- **The mock skill-graph lookups**: table lookups, and a case-insensitive substring
  filter with a Python slice.

Modules, one per source file: `Scout` (plus `Prompts` for its fixed wording),
`RoadmapRoutes`, `RedisCache`, `SupabaseStore`, `AuthRoutes`, `Schemas` and
`SkillGraph`. Three support modules sit beside them:

- `Wrappers` holds `Option`, `Result`, and `Call`, the outcome of a call that may raise.
- `Json` holds the Python value universe. `Json` is the subset that `json.dumps`
  accepts, which excludes `datetime`.
- `Text` holds the `str` methods the code relies on.

Collaborators the model cannot see are inputs:

- The language model, `json.loads`, `json.dumps` and `repr` are carried by
  `Scout.Env`.
- The cache's `json.dumps`/`json.loads` are carried by `RedisCache.Codec`.
  `RoundTrips(c, v)` states, for one value, that the codec reads it back from the
  text it writes. It is asked only of the value at hand, never of the whole codec.
- The token service is carried by `AuthRoutes.AuthService`.
- `uuid4()` and the `utcnow()` readings are parameters.

Behaviour of the code worth noting:

- A cached text that does not decode makes mock `get` raise, so `get_roadmap` answers
  500. The cache does not treat it as a miss.
- Mock `save_roadmap` on a document without `id` raises. The generate route then
  answers 500 after generation. In the model this cannot happen, because a generated
  document always carries its id.
- The generate route caches whatever it has saved. It has no "not cached when
  persistence failed" branch.
- On update, `created_at` is whatever the model's reply holds. The code does not
  preserve it.

## Model

| member | source | states |
|---|---|---|
| Text.Strip | src/services/scout_client.py:118 | `str.strip()`: the result has no whitespace at either end, and text already stripped is returned unchanged |
| Text.StripCutsOnlyOuterSpace | src/services/scout_client.py:118 | the result is a slice `s[i:j]` of the input, where everything before `i` and from `j` on is whitespace; with the result stripped, this fixes it uniquely |
| Schemas.ParseLevel | src/models/schemas.py:24 | exactly "beginner", "intermediate" and "advanced" are accepted, and each parses to the level with that name |
| Schemas.LevelRoundTrip | src/models/schemas.py:24 | every level's name parses back to that level |
| Schemas.ParseStyle | src/models/schemas.py:29 | exactly the four learning styles are accepted, each naming back to its text |
| Schemas.StyleRoundTrip | src/models/schemas.py:29 | every style's name parses back to that style |
| Schemas.ParseResourceType | src/models/schemas.py:36 | exactly the five resource kinds are accepted, each naming back to its text |
| Schemas.ResourceTypeRoundTrip | src/models/schemas.py:36 | every resource kind's name parses back to it |
| Schemas.SkillAsDict | src/models/schemas.py:21-25 | a skill's `.dict()` has exactly the four field keys, with the name, the score and the level's name as values |
| Schemas.ValidSkillAssessment | src/models/schemas.py:23 | pydantic accepts a skill assessment iff its score lies between 1 and 10 |
| Schemas.ValidLearningPreferences | src/models/schemas.py:30 | pydantic accepts the preferences iff the weekly hours, when given, lie between 1 and 168 |
| Schemas.ValidGenerateRequest | src/models/schemas.py:82-86 | a generate request is accepted iff every skill assessment and the preferences, when given, are valid |
| Schemas.PreferencesAsDict | src/models/schemas.py:28-33 | `.dict()` of the preferences has all five keys, unset fields included; a set field holds its value (the style by its name) and an unset one holds None |
| Schemas.PreferencesAsSetDict | src/models/schemas.py:28-33 | only the fields that are set, each with its `.dict()` value |
| Schemas.RoadmapAsDict | src/models/schemas.py:69-79 | `.dict()` of a roadmap keeps every field's value and holds both timestamps as `datetime` objects, or None where unset |
| Schemas.RoadmapAsJsonDict | src/models/schemas.py:69-79 | the JSON form has the same keys and values, except that a set timestamp becomes its ISO text; an unset one stays None |
| Schemas.TimestampedDictIsNotJson | src/models/schemas.py:78-79 | a roadmap with a timestamp has a `.dict()` that `json.dumps` rejects |
| Scout.SkillLine | src/services/scout_client.py:29 | a line exists iff the skill has `skill`, `score` and `level`; it opens with "- {skill}: Level ", closes with "/10 ({level})", and the text between the two is the score |
| Scout.SkillLines | src/services/scout_client.py:28-31 | the lines exist iff every skill has the three keys; there is one line per skill, in input order |
| Scout.SkillLinesInOrder | src/services/scout_client.py:28-31 | when no skill line contains a line break, splitting the summary on "\n" gives back exactly the per-skill lines, in order |
| Scout.PreferencesText | src/services/scout_client.py:33-41 | the block is non-empty iff the preferences are truthy, and it shows `.get('learning_style', 'mixed')` and `.get('time_commitment_hours_per_week', 10)` |
| Scout.AbsentStyleMeansMixed | src/services/scout_client.py:35 | a missing style key renders exactly as an explicit "mixed" |
| Scout.AbsentHoursMeanTen | src/services/scout_client.py:36 | a missing hours key renders exactly as an explicit 10 |
| Scout.DefaultPreferences | src/services/scout_client.py:35-41 | with neither key present, the block shows "mixed" and "10" |
| Scout.BuildRoadmapPrompt | src/services/scout_client.py:20-99 | a prompt exists iff every skill dictionary has the three keys the lines read |
| Scout.Cleaned | src/services/scout_client.py:118-127 | the sanitised text never begins or ends with whitespace |
| Scout.Sanitise | src/services/scout_client.py:118-127 | the step-by-step reassignment computes `Cleaned` |
| Scout.PlainTextIsUnchanged | src/services/scout_client.py:118-127 | stripped text with no fence at either end is returned unchanged |
| Scout.JsonFenceIsRemoved | src/services/scout_client.py:121-127 | "```json"+j+"```" cleans to strip(j) when j does not open with "```" |
| Scout.PlainFenceIsRemoved | src/services/scout_client.py:123-127 | "```"+j+"```" cleans to strip(j) when j does not open with "json" |
| Scout.BareObjectIsStripped | src/services/scout_client.py:118-127 | text that strips to a `{...}` object is only stripped |
| Scout.FencesAreTransparent | src/services/scout_client.py:118-127 | a JSON object cleans to the same text bare, fenced as "```json" or fenced as "```" |
| Scout.CleanedIsNotIdempotent | src/services/scout_client.py:118-127 | "``` ```x```" cleans to "```x", and a second pass gives "x" |
| Scout.DecodedSeesCleanedText | src/services/scout_client.py:130 | decoding depends on the reply only through its cleaned text |
| Scout.FencedReplyDecodesAlike | src/services/scout_client.py:117-130 | replies that differ only by a fence around an object decode to the same result |
| Scout.Decoded | src/services/scout_client.py:117-130 | an upstream failure exactly when the model call raised; for an answer, malformed output when `json.loads` rejects the cleaned reply, non-object when it decodes to something other than an object, and otherwise exactly the decoded object |
| Scout.DecodeReply | src/services/scout_client.py:117-130 | the model call, sanitiser and `json.loads` fail as upstream error, malformed output or non-object, and otherwise yield the object |
| Scout.AssembleRoadmap | src/services/scout_client.py:134-145 | the document has exactly the ten keys |
| Scout.AssembledIdentity | src/services/scout_client.py:135-144 | `id`, `user_id`, `career_goal`, `created_at` and `updated_at` come from the caller, not the model |
| Scout.AssembledContent | src/services/scout_client.py:137-142 | `title`, `estimated_weeks` and `modules` are copied when present and default only when absent; progress is 0 and 0.0 |
| Scout.AssemblyIgnoresOtherFields | src/services/scout_client.py:134-145 | objects that agree on `title`, `estimated_weeks` and `modules` give the same document, whatever else they hold |
| Scout.Generated | src/services/scout_client.py:101-161 | the generation fails for a missing skill field iff some skill dictionary lacks one, never for serialisation, and a success carries "Roadmap generated successfully" |
| Scout.GeneratedFrom | src/services/scout_client.py:117-148 | once the prompt is known: a missing prompt, and only that, is the missing-field failure; a success carries the generated message |
| Scout.GeneratedFromOutcome | src/services/scout_client.py:117-148 | with a prompt, a decoding error is passed through unchanged, and a decoded object gives the assembled ten-key document with the fresh id and the caller's user |
| Scout.GeneratedOutcome | src/services/scout_client.py:101-161 | when every skill has its fields a prompt exists, its decoding error is passed through, and otherwise the result is the assembled document |
| Scout.GenerateRoadmap | src/services/scout_client.py:101-161 | the outcome is `Generated`: an error when a skill lacks a field or decoding fails, and otherwise the assembled document |
| Scout.UpdatePrompt | src/services/scout_client.py:174-186 | the update prompt exists iff the existing roadmap is JSON |
| Scout.WithIdentity | src/services/scout_client.py:201-203 | `id` is the roadmap id, `updated_at` is now, and every other key of the decoded object is unchanged |
| Scout.UnserializableOnly | src/services/scout_client.py:173-178 | the update fails as not serialisable iff the existing roadmap is not JSON |
| Scout.Updated | src/services/scout_client.py:163-215 | the update never fails for a missing skill field, and a success carries "Roadmap updated successfully", the roadmap id and `updated_at` = now |
| Scout.UpdatedOutcome | src/services/scout_client.py:171-215 | for a JSON existing roadmap a prompt exists, a decoding error is passed through, and otherwise the result has the decoded keys plus `id` and `updated_at`, with every other decoded key keeping its value |
| Scout.UpdateRoadmap | src/services/scout_client.py:163-215 | the outcome is `Updated`: an error when the prompt cannot be built or decoding fails, and otherwise the decoded object carrying the forced identity |
| RedisCache.Read | src/db/redis_client.py:32-36 | an absent key reads as None, and a read raises only for a present text that does not decode |
| RedisCache.ReadAfterWrite | src/db/redis_client.py:19-36 | `get(k)` after `set(k, v)` returns v, for any v the codec reads back from its own text |
| RedisCache.ReadOtherKey | src/db/redis_client.py:19-51 | writing or deleting one key leaves what every other key reads unchanged |
| RedisCache.Cache.constructor | src/db/redis_client.py:10-14 | mock mode starts with an empty dictionary |
| RedisCache.Cache.Set | src/db/redis_client.py:19-23 | answers True; the key holds the value's JSON text and nothing else changes; the expiry plays no part |
| RedisCache.Cache.Get | src/db/redis_client.py:32-36 | what `Read` gives on the current dictionary |
| RedisCache.Cache.Delete | src/db/redis_client.py:45-51 | True iff the key was present; afterwards it is absent and nothing else changes |
| RedisCache.Cache.Exists | src/db/redis_client.py:60-63 | true iff the key is in the dictionary |
| RedisCache.RealWrite | src/db/redis_client.py:25-58 | `set` (lines 25-30) and `delete` (lines 53-58) against the server: True iff the call returned, False where it raised |
| RedisCache.RealExists | src/db/redis_client.py:65-69 | true iff the call returned a non-zero count, and false when it raised |
| RedisCache.RealGet | src/db/redis_client.py:38-43 | a raised call gives None |
| RedisCache.RealGetAgreesWithRead | src/db/redis_client.py:32-43 | against the same contents, real `get` gives what mock `get` gives, with the mock's decoding error turned into None |
| SupabaseStore.Inserted | src/db/supabase_mcp_client.py:154-157 | assigning a key keeps the earlier keys in place, adds the key once, and keeps the keys distinct |
| SupabaseStore.UserRecord | src/db/supabase_mcp_client.py:90-94 | the user record has exactly `username`, `created_at` and `last_login`, with the given values |
| SupabaseStore.WithLastLogin | src/db/supabase_mcp_client.py:140 | only `last_login` changes, to now |
| SupabaseStore.Owned | src/db/supabase_mcp_client.py:205-207 | the listing holds only stored documents whose `user_id` is the user, and every such document |
| SupabaseStore.OwnedAfterAppend | src/db/supabase_mcp_client.py:205-207 | a document filed last comes last in its owner's listing |
| SupabaseStore.OwnedSkipsUnfiled | src/db/supabase_mcp_client.py:205-207 | a key with no document adds nothing to a listing |
| SupabaseStore.Store.constructor | src/db/supabase_mcp_client.py:39-44 | mock mode starts with empty `users` and `roadmaps` |
| SupabaseStore.Store.CreateUser | src/db/supabase_mcp_client.py:87-96 | inserts or overwrites the user's record and returns it; roadmaps unchanged |
| SupabaseStore.Store.GetUser | src/db/supabase_mcp_client.py:118-121 | the stored record or None |
| SupabaseStore.Store.UpdateLastLogin | src/db/supabase_mcp_client.py:136-141 | a known user's `last_login` becomes now; an unknown user changes nothing |
| SupabaseStore.Store.SaveRoadmap | src/db/supabase_mcp_client.py:152-157 | files the document under its own `id` and returns it unchanged; a document without `id` raises and nothing is written |
| SupabaseStore.Store.GetRoadmap | src/db/supabase_mcp_client.py:169-172 | the stored document or None |
| SupabaseStore.Store.UpdateRoadmap | src/db/supabase_mcp_client.py:186-190 | upserts a full replacement under the given id and returns it |
| SupabaseStore.Store.GetUserRoadmaps | src/db/supabase_mcp_client.py:203-207 | the loop computes `Owned` in dictionary order |
| SupabaseStore.RealRead | src/db/supabase_mcp_client.py:118-134 | the first row of the reply, None for a reply without rows, and None where the call raised |
| SupabaseStore.RealList | src/db/supabase_mcp_client.py:209-218 | the rows of the reply, and nothing where the call raised |
| SupabaseStore.RealWrite | src/db/supabase_mcp_client.py:159-167 | a reply with rows returns the first row; an empty reply, a reply without `data`, a reply with an empty row list (whose `[0]` raises) and a raised call all return the input document |
| SupabaseStore.RealCreateUser | src/db/supabase_mcp_client.py:98-116 | a reply with rows gives its first row; an empty or `data`-less reply gives `{}`; a raised call, or an empty row list, gives a locally made record |
| SkillGraph.RelatedSkills | src/db/neo4j_client.py:24-34 | the table entry for the exact name, else the fixed three-item default |
| SkillGraph.RelatedSkillsIgnoreLimit | src/db/neo4j_client.py:24-34 | the limit does not change the answer |
| SkillGraph.RelatedSkillsAreCaseSensitive | src/db/neo4j_client.py:28-34 | "python" gets the default while "Python" does not |
| SkillGraph.SkillPrerequisites | src/db/neo4j_client.py:48-57 | the table entry or the empty list |
| SkillGraph.SkillLearningPath | src/db/neo4j_client.py:69-72 | exactly the path start, "Intermediate Skill", target |
| SkillGraph.Matching | src/db/neo4j_client.py:98 | the filter keeps exactly the matching entries, in list order |
| SkillGraph.MatchingCounts | src/db/neo4j_client.py:98 | the filter keeps each matching entry exactly as often as the input holds it, and no other entry |
| SkillGraph.Slice | src/db/neo4j_client.py:98 | Python's `xs[:limit]`, negative limits included |
| SkillGraph.SearchSkills | src/db/neo4j_client.py:88-98 | the results are the first matches in catalog order, exactly as many as `[:limit]` keeps (negative limits included), so every match comes back once the limit covers them all; each result's name contains the query case-insensitively |
| SkillGraph.EmptyQueryMatchesAll | src/db/neo4j_client.py:98 | the empty query matches every entry |
| SkillGraph.EmptyQueryTakesPrefix | src/db/neo4j_client.py:88-98 | the empty query returns the first min(limit, 5) entries |
| AuthRoutes.Claims | src/api/auth_routes.py:33-36 | the token's claims are exactly `{"sub": username}` |
| AuthRoutes.Login | src/api/auth_routes.py:9-42 | rejected credentials give 401 and no store change; otherwise an unknown user is created, a known user gets a new `last_login`, the user is known afterwards, and the token for the username is returned |
| AuthRoutes.LoginKeepsCreationDate | src/api/auth_routes.py:28-29 | a known user's login keeps `created_at` |
| AuthRoutes.CurrentUser | src/api/auth_routes.py:44-53 | the stored record, or 404 where there is none |
| RoadmapRoutes.OwnerFromHeader | src/api/roadmap_routes.py:16-23 | the owner is "anonymous" with no "Bearer " header or a falsy payload, else the payload's `sub`, or "anonymous" when it has none |
| RoadmapRoutes.LoggedInOwner | src/api/roadmap_routes.py:16-23 | "Bearer " plus a login token resolves to the user who logged in, whenever the decoded payload's `sub` is that user, whatever other claims it carries |
| RoadmapRoutes.EveryBearerIsRemoved | src/api/roadmap_routes.py:21 | `.replace` removes every "Bearer ", not only the leading one |
| RoadmapRoutes.SkillDicts | src/api/roadmap_routes.py:42 | one `.dict()` per skill, in order, each with the fields the prompt reads |
| RoadmapRoutes.PreferencesArgument | src/api/roadmap_routes.py:43 | preferences are handed over iff the request has them, as the dictionary of the set fields (corrected conversion) |
| RoadmapRoutes.PreferencesArgumentAsWritten | src/api/roadmap_routes.py:43 | preferences are handed over iff the request has them, as their full `.dict()` (as written) |
| RoadmapRoutes.UnsetStyleShowsNone | src/api/roadmap_routes.py:43 | as written, an unset style shows as "None" in the prompt |
| RoadmapRoutes.UnsetPreferencesShowDefaults | src/api/roadmap_routes.py:43 | with the set fields only, an unset style shows "mixed" and unset hours show 10 |
| RoadmapRoutes.EmptyPreferencesShowNoBlock | src/api/roadmap_routes.py:43 | preferences with no field set give no preferences block with the set fields handed over, and a block showing "None" twice as written |
| RoadmapRoutes.RoutePrompt | src/api/roadmap_routes.py:41-51 | a request always yields a generation prompt |
| RoadmapRoutes.FallbackDocument | src/api/roadmap_routes.py:125 | the request's copy exists iff the request has one, and is handed over as its JSON document (corrected conversion) |
| RoadmapRoutes.FallbackDocumentAsWritten | src/api/roadmap_routes.py:125 | the request's copy handed over as `.dict()` (as written) |
| RoadmapRoutes.ExistingRoadmap | src/api/roadmap_routes.py:116-125 | the stored roadmap when truthy, else the request's copy; none exactly when both are missing |
| RoadmapRoutes.TimestampedFallbackFails | src/api/roadmap_routes.py:125-132 | as written, a timestamped request copy makes the update fail as not serialisable |
| RoadmapRoutes.FallbackReachesModel | src/api/roadmap_routes.py:125-132 | the request copy as JSON always yields an update prompt |
| RoadmapRoutes.CacheKey | src/api/roadmap_routes.py:58 | the key `roadmap:<id>` under which the routes cache a document; CacheKeyInjective proves distinct ids get distinct keys |
| RoadmapRoutes.CacheKeyInjective | src/api/roadmap_routes.py:58 | different ids have different cache keys |
| RoadmapRoutes.FilingKeepsCoherence | src/api/roadmap_routes.py:55-59 | filing a document under its own id and caching its text keeps store and cache coherent |
| RoadmapRoutes.BackfillKeepsCoherence | src/api/roadmap_routes.py:84-92 | backfilling the cache from the store keeps coherence |
| RoadmapRoutes.CoherentCacheReadsStore | src/api/roadmap_routes.py:78-94 | under coherence, the cache reads as the stored document whenever the codec reads that document back, and as None where the store holds nothing |
| RoadmapRoutes.CoherentAnswer | src/api/roadmap_routes.py:78-94 | a coherent cache answers with the stored document or with nothing when the codec reads that document back, and with nothing where the store holds none; stored documents are truthy |
| RoadmapRoutes.GenerateRoute | src/api/roadmap_routes.py:25-68 | for a request pydantic accepted, an engine error is a 500 with nothing written and the store order unchanged; otherwise the document, owned by the header's user, is in the store under its fresh id, placed in the store order as dict assignment places it, and in the cache under `roadmap:<id>`, and coherence holds |
| RoadmapRoutes.File | src/api/roadmap_routes.py:53-59 | save, then cache: the document is in the store, its id placed in the store order as dict assignment places it, and its text is in the cache; users unchanged, coherence kept |
| RoadmapRoutes.GeneratedDocumentCarriesId | src/api/roadmap_routes.py:54-58 | a generated document's `id` is the fresh id |
| RoadmapRoutes.GetRoute | src/api/roadmap_routes.py:70-103 | a truthy cached value is returned as is; otherwise the stored document is returned and backfilled, or 404 with the cache untouched; so an id the store lacks gets 404, and a stored id whose document the codec reads back gets that document |
| RoadmapRoutes.UpdateRoute | src/api/roadmap_routes.py:105-151 | 404 with no writes when neither roadmap exists; an engine error writes nothing; on both the store order is unchanged; otherwise the revised document, whose `id` is the roadmap id, is in both store and cache, the store order is updated as dict assignment does, and coherence holds |
| RoadmapRoutes.Refile | src/api/roadmap_routes.py:134-140 | overwrite, then cache: the document is in the store, the store order is updated as dict assignment does, and its text is in the cache; coherence kept |
| RoadmapRoutes.ListRoute | src/api/roadmap_routes.py:153-158 | the store's listing for the user, with `count` equal to its length; the cache takes no part |

## Left out

- The language model, `json.loads`/`json.dumps`, `repr`, the token service (`src/services/auth` is not part of this model), `uuid4()` and `utcnow()` are inputs.
- `processing_time_seconds` is not modelled, because it is a float wall-clock duration.
- async execution and request concurrency are not modelled. Each handler is one atomic sequential method.
- The real backends are not modelled: MCP JSON-RPC over HTTP, redis `setex`, TTL expiry and Cypher queries. Only their error-to-default outcomes are kept, as the `Real*` functions.
- Mode selection in the constructors is not modelled, because it reads files and the environment. Every object starts in mock mode with empty state.
- `HTTPException` status codes become `RouteError`/`AuthError` values. `response_model` validation is not modelled. It runs after the writes, so persistence does not depend on it.
- The route wrappers `{"roadmap": ...}` and `{"roadmaps": ..., "count": ...}` are not modelled. Only their contents are.
- `src/db/supabase_client.py` (no route imports it) and `src/main.py` (application bootstrap) are not part of this model.
- Python floats (`progress_percentage`, and any float the model returns) are IEEE doubles; the model holds them as unbounded reals. No operation in the core does float arithmetic or comparison, so only their identity matters; NaN and infinities are not represented.
- Text.Lower: folds only the ASCII letters A to Z, not all of Unicode.
- SupabaseStore.Store.SaveRoadmap: a non-string `id` is refused (`NonStringId`). Python would file the document under that non-string key.
- RedisCache.Cache.Set: accepts only JSON values. A value `json.dumps` rejects would raise in Python.
- Scout.BuildRoadmapPrompt: its contract states only when a prompt exists. The wording is the fixed text in `Prompts.Wording`, spliced exactly as the function body shows.
- RoadmapRoutes.UnsetPreferencesShowDefaults: covers preferences with at least one field set. When no field is set, the corrected route hands over an empty dictionary and the prompt has no preferences block at all (RoadmapRoutes.EmptyPreferencesShowNoBlock), as `.dict(exclude_none=True)` gives; the code as written shows "None" for both values.
- RoadmapRoutes.RoutePrompt, RoadmapRoutes.GenerateRoute and RoadmapRoutes.UpdateRoute use the corrected conversions of the two findings below. The code as written is modelled by RoadmapRoutes.PreferencesArgumentAsWritten and RoadmapRoutes.FallbackDocumentAsWritten.
- The `print` calls that log backend errors in the clients and the routes are not modelled, because they only write to the console.

## Findings

| source | as written | input that shows it | evidently intended | confidence | as-written member | corrected member |
|---|---|---|---|---|---|---|
| src/api/roadmap_routes.py:43 | `.dict()` keeps unset preferences as `None`, so the `.get` defaults at src/services/scout_client.py:35-36 never apply and the prompt shows "Learning Style: None" | preferences with only `time_commitment_hours_per_week` set | unset preferences show "mixed" and 10 when some field is set; with none set (`{}`) the corrected conversion gives no block (RoadmapRoutes.EmptyPreferencesShowNoBlock) | not executed | RoadmapRoutes.UnsetStyleShowsNone | RoadmapRoutes.UnsetPreferencesShowDefaults |
| src/api/roadmap_routes.py:125 | the request's `existing_roadmap.dict()` keeps its timestamps as `datetime` objects, which `json.dumps` at src/services/scout_client.py:178 rejects, so the update answers 500 | an update for an id the store lacks, whose `existing_roadmap` has `created_at` set | the copy handed over as JSON, with timestamps as ISO text | not executed | RoadmapRoutes.TimestampedFallbackFails | RoadmapRoutes.FallbackReachesModel |
