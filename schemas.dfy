/** The request, response and document models of the service (pydantic models in the
    source), their `Literal` enumerations and `Field` bounds, and the `.dict()`
    conversions the roadmap routes apply to them. */
module Schemas {

  import opened Wrappers
  import opened Json

  /** `DifficultyLevel`, also the type of `SkillAssessment.level`. */
  datatype Level = Beginner | Intermediate | Advanced

  function LevelName(l: Level): string
  {
    match l
    case Beginner => "beginner"
    case Intermediate => "intermediate"
    case Advanced => "advanced"
  }

  /** Validation of a `DifficultyLevel` literal: exactly the three names are accepted. */
  function ParseLevel(s: string): (r: Option<Level>)
    ensures r.Some? <==> s == "beginner" || s == "intermediate" || s == "advanced"
    ensures r.Some? ==> LevelName(r.value) == s
  {
    if s == "beginner" then Some(Beginner)
    else if s == "intermediate" then Some(Intermediate)
    else if s == "advanced" then Some(Advanced)
    else None
  }

  lemma LevelRoundTrip(l: Level)
    ensures ParseLevel(LevelName(l)) == Some(l)
  {
  }

  /** The `learning_style` literal of `LearningPreferences`. */
  datatype LearningStyle = Visual | HandsOn | Reading | Mixed

  function StyleName(s: LearningStyle): string
  {
    match s
    case Visual => "visual"
    case HandsOn => "hands-on"
    case Reading => "reading"
    case Mixed => "mixed"
  }

  /** Validation of a `learning_style` literal: exactly the four names are accepted. */
  function ParseStyle(s: string): (r: Option<LearningStyle>)
    ensures r.Some? <==> s == "visual" || s == "hands-on" || s == "reading" || s == "mixed"
    ensures r.Some? ==> StyleName(r.value) == s
  {
    if s == "visual" then Some(Visual)
    else if s == "hands-on" then Some(HandsOn)
    else if s == "reading" then Some(Reading)
    else if s == "mixed" then Some(Mixed)
    else None
  }

  lemma StyleRoundTrip(s: LearningStyle)
    ensures ParseStyle(StyleName(s)) == Some(s)
  {
  }

  /** `ResourceType`. */
  datatype ResourceType = Video | Article | Documentation | InteractiveLab | Book

  function ResourceTypeName(t: ResourceType): string
  {
    match t
    case Video => "video"
    case Article => "article"
    case Documentation => "documentation"
    case InteractiveLab => "interactive-lab"
    case Book => "book"
  }

  /** Validation of a `ResourceType` literal: exactly the five names are accepted. */
  function ParseResourceType(s: string): (r: Option<ResourceType>)
    ensures r.Some? <==> s in ["video", "article", "documentation", "interactive-lab", "book"]
    ensures r.Some? ==> ResourceTypeName(r.value) == s
  {
    if s == "video" then Some(Video)
    else if s == "article" then Some(Article)
    else if s == "documentation" then Some(Documentation)
    else if s == "interactive-lab" then Some(InteractiveLab)
    else if s == "book" then Some(Book)
    else None
  }

  lemma ResourceTypeRoundTrip(t: ResourceType)
    ensures ParseResourceType(ResourceTypeName(t)) == Some(t)
  {
  }

  /** A `datetime`, held as its ISO-8601 text. */
  type DateTime = string

  datatype User = User(username: string, createdAt: Option<DateTime>, lastLogin: Option<DateTime>)

  datatype UserLogin = UserLogin(username: string, password: string)

  datatype Token = Token(accessToken: string, tokenType: string, username: string)

  datatype SkillAssessment = SkillAssessment(skill: string, score: int, level: Level, lastUsed: Option<string>)

  /** `score: int = Field(ge=1, le=10)`. */
  predicate ValidSkillAssessment(s: SkillAssessment)
  {
    1 <= s.score <= 10
  }

  datatype LearningPreferences = LearningPreferences(
    learningStyle: Option<LearningStyle>,
    timeCommitmentHoursPerWeek: Option<int>,
    focusAreas: Option<seq<string>>,
    excludeTopics: Option<seq<string>>,
    targetCompletionDate: Option<string>)

  /** `time_commitment_hours_per_week: Optional[int] = Field(None, ge=1, le=168)`. */
  predicate ValidLearningPreferences(p: LearningPreferences)
  {
    p.timeCommitmentHoursPerWeek.Some? ==> 1 <= p.timeCommitmentHoursPerWeek.value <= 168
  }

  datatype LearningResource = LearningResource(
    title: string,
    kind: ResourceType,
    url: string,
    duration: Option<string>,
    durationMinutes: Option<int>,
    difficulty: Level,
    description: Option<string>)

  datatype Project = Project(
    title: string,
    description: string,
    estimatedHours: int,
    skillsApplied: seq<string>,
    deliverables: seq<string>,
    difficulty: Level)

  datatype RoadmapModule = RoadmapModule(
    id: string,
    title: string,
    description: string,
    estimatedHours: int,
    skillsTaught: seq<string>,
    resources: seq<LearningResource>,
    project: Option<Project>,
    prerequisiteSkills: Option<seq<string>>,
    learningOutcomes: Option<seq<string>>,
    difficulty: Option<Level>)

  /** The six required fields are plain fields; the four optional ones are `Option`s. */
  datatype Roadmap = Roadmap(
    id: string,
    userId: string,
    title: string,
    careerGoal: string,
    estimatedWeeks: int,
    modules: seq<RoadmapModule>,
    currentModule: Option<int>,
    progressPercentage: Option<real>,
    createdAt: Option<DateTime>,
    updatedAt: Option<DateTime>)

  datatype RoadmapGenerateRequest = RoadmapGenerateRequest(
    careerGoal: string,
    currentSkills: seq<SkillAssessment>,
    learningPreferences: Option<LearningPreferences>,
    userId: Option<string>)

  /** `existing_roadmap` may be left out. */
  datatype RoadmapUpdateRequest = RoadmapUpdateRequest(userPrompt: string, existingRoadmap: Option<Roadmap>)

  /** A generate request pydantic accepts: every skill score and the weekly hours in range. */
  predicate ValidGenerateRequest(r: RoadmapGenerateRequest)
  {
    && (forall i :: 0 <= i < |r.currentSkills| ==> ValidSkillAssessment(r.currentSkills[i]))
    && (r.learningPreferences.Some? ==> ValidLearningPreferences(r.learningPreferences.value))
  }

  // ---------------------------------------------------------------------------
  // `.dict()`: a model as the dictionary pydantic produces, one key per field and
  // `None` for every optional field that is unset.

  function Strings(xs: seq<string>): (v: Json)
    ensures v.VList? && |v.items| == |xs|
  {
    var items: seq<Json> := seq(|xs|, i requires 0 <= i < |xs| => VStr(xs[i]));
    ListOf(items)
  }

  function OptString(o: Option<string>): Json
  {
    if o.Some? then VStr(o.value) else VNull
  }

  function OptInt(o: Option<int>): Json
  {
    if o.Some? then VInt(o.value) else VNull
  }

  function OptStrings(o: Option<seq<string>>): Json
  {
    if o.Some? then Strings(o.value) else VNull
  }

  function ResourceAsDict(r: LearningResource): Dict
  {
    var m: map<string, Value> := map[
      "title" := VStr(r.title),
      "type" := VStr(ResourceTypeName(r.kind)),
      "url" := VStr(r.url),
      "duration" := OptString(r.duration),
      "duration_minutes" := OptInt(r.durationMinutes),
      "difficulty" := VStr(LevelName(r.difficulty)),
      "description" := OptString(r.description)];
    m
  }

  function ProjectAsDict(p: Project): Dict
  {
    var m: map<string, Value> := map[
      "title" := VStr(p.title),
      "description" := VStr(p.description),
      "estimated_hours" := VInt(p.estimatedHours),
      "skills_applied" := Strings(p.skillsApplied),
      "deliverables" := Strings(p.deliverables),
      "difficulty" := VStr(LevelName(p.difficulty))];
    m
  }

  function Resources(rs: seq<LearningResource>): (v: Json)
    ensures v.VList? && |v.items| == |rs|
  {
    ListOf(seq(|rs|, i requires 0 <= i < |rs| => DictOf(ResourceAsDict(rs[i]))))
  }

  function Modules(ms: seq<RoadmapModule>): (v: Json)
    ensures v.VList? && |v.items| == |ms|
    ensures forall i :: 0 <= i < |ms| ==> v.items[i] == DictOf(ModuleAsDict(ms[i]))
  {
    ListOf(seq(|ms|, i requires 0 <= i < |ms| => DictOf(ModuleAsDict(ms[i]))))
  }

  function OptProject(o: Option<Project>): Json
  {
    if o.Some? then DictOf(ProjectAsDict(o.value)) else VNull
  }

  function OptLevel(o: Option<Level>): Json
  {
    if o.Some? then VStr(LevelName(o.value)) else VNull
  }

  function ModuleAsDict(m: RoadmapModule): Dict
  {
    var m: map<string, Value> := map[
      "id" := VStr(m.id),
      "title" := VStr(m.title),
      "description" := VStr(m.description),
      "estimated_hours" := VInt(m.estimatedHours),
      "skills_taught" := Strings(m.skillsTaught),
      "resources" := Resources(m.resources),
      "project" := OptProject(m.project),
      "prerequisite_skills" := OptStrings(m.prerequisiteSkills),
      "learning_outcomes" := OptStrings(m.learningOutcomes),
      "difficulty" := OptLevel(m.difficulty)];
    m
  }

  /** The keys of a roadmap's dictionary other than its two timestamps. */
  function RoadmapFieldsAsDict(r: Roadmap): Dict
  {
    var m: map<string, Value> := map[
      "id" := VStr(r.id),
      "user_id" := VStr(r.userId),
      "title" := VStr(r.title),
      "career_goal" := VStr(r.careerGoal),
      "estimated_weeks" := VInt(r.estimatedWeeks),
      "modules" := Modules(r.modules),
      "current_module" := OptInt(r.currentModule),
      "progress_percentage" := if r.progressPercentage.Some? then VFloat(r.progressPercentage.value) else VNull];
    m
  }

  /** An optional `datetime` field as `.dict()` leaves it. */
  function DateTimeValue(t: Option<DateTime>): Value
  {
    if t.Some? then VDateTime(t.value) else VNull
  }

  /** `roadmap.dict()` as pydantic produces it: the timestamps stay `datetime` objects. */
  function RoadmapAsDict(r: Roadmap): (d: map<string, Value>)
    ensures d.Keys == RoadmapFieldsAsDict(r).Keys + {"created_at", "updated_at"}
    ensures d["created_at"] == DateTimeValue(r.createdAt) && d["updated_at"] == DateTimeValue(r.updatedAt)
    ensures forall k :: k in RoadmapFieldsAsDict(r) ==> d[k] == RoadmapFieldsAsDict(r)[k]
  {
    var fields: map<string, Value> := RoadmapFieldsAsDict(r);
    fields["created_at" := DateTimeValue(r.createdAt)]["updated_at" := DateTimeValue(r.updatedAt)]
  }

  /** The roadmap as a JSON document: `roadmap.dict()` with each timestamp written as
      its ISO text, which is what `json.dumps` needs (pydantic's JSON mode). */
  function RoadmapAsJsonDict(r: Roadmap): (d: Dict)
    ensures d.Keys == RoadmapAsDict(r).Keys
    ensures forall k :: k in d && k != "created_at" && k != "updated_at" ==> d[k] == RoadmapAsDict(r)[k]
    ensures forall k :: k in d && RoadmapAsDict(r)[k].VDateTime? ==> d[k] == VStr(RoadmapAsDict(r)[k].iso)
    ensures forall k :: k in d && RoadmapAsDict(r)[k] == VNull ==> d[k] == VNull
  {
    var fields: map<string, Value> := RoadmapFieldsAsDict(r);
    var d: map<string, Value> := fields["created_at" := OptString(r.createdAt)]["updated_at" := OptString(r.updatedAt)];
    d
  }

  /** A roadmap that carries a timestamp has a `.dict()` that `json.dumps` rejects. */
  lemma TimestampedDictIsNotJson(r: Roadmap)
    requires r.createdAt.Some? || r.updatedAt.Some?
    ensures !JsonCompatible(VDict(RoadmapAsDict(r)))
  {
    var d := RoadmapAsDict(r);
    if r.updatedAt.Some? {
      assert !JsonCompatible(d["updated_at"]);
    } else {
      assert !JsonCompatible(d["created_at"]);
    }
  }

  /** `skill.dict()`: the four fields of a skill assessment, the level as its literal. */
  function SkillAsDict(s: SkillAssessment): (d: Dict)
    ensures d.Keys == {"skill", "score", "level", "last_used"}
    ensures "skill" in d && d["skill"] == VStr(s.skill)
    ensures "score" in d && d["score"] == VInt(s.score)
    ensures "level" in d && d["level"] == VStr(LevelName(s.level))
  {
    var m: map<string, Value> := map[
      "skill" := VStr(s.skill),
      "score" := VInt(s.score),
      "level" := VStr(LevelName(s.level)),
      "last_used" := OptString(s.lastUsed)];
    m
  }

  /** `preferences.dict()` as pydantic produces it: all five keys, `None` when unset. */
  function PreferencesAsDict(p: LearningPreferences): (d: Dict)
    ensures d.Keys == {"learning_style", "time_commitment_hours_per_week", "focus_areas", "exclude_topics", "target_completion_date"}
    ensures d["learning_style"] == if p.learningStyle.Some? then VStr(StyleName(p.learningStyle.value)) else VNull
    ensures d["time_commitment_hours_per_week"] == OptInt(p.timeCommitmentHoursPerWeek)
    ensures d["focus_areas"] == OptStrings(p.focusAreas) && d["exclude_topics"] == OptStrings(p.excludeTopics)
    ensures d["target_completion_date"] == OptString(p.targetCompletionDate)
  {
    var m: map<string, Value> := map[
      "learning_style" := if p.learningStyle.Some? then VStr(StyleName(p.learningStyle.value)) else VNull,
      "time_commitment_hours_per_week" := OptInt(p.timeCommitmentHoursPerWeek),
      "focus_areas" := OptStrings(p.focusAreas),
      "exclude_topics" := OptStrings(p.excludeTopics),
      "target_completion_date" := OptString(p.targetCompletionDate)];
    m
  }

  /** The preferences as a dictionary of the fields that are set (`exclude_none=True`):
      an unset field has no key, so a `.get(key, default)` reader sees its default. */
  function PreferencesAsSetDict(p: LearningPreferences): (d: Dict)
    ensures forall k :: k in d <==> k in PreferencesAsDict(p) && PreferencesAsDict(p)[k] != VNull
    ensures forall k :: k in d ==> d[k] == PreferencesAsDict(p)[k]
  {
    var all := PreferencesAsDict(p);
    map k | k in all && all[k] != VNull :: all[k]
  }
}
