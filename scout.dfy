/** The roadmap engine (`ScoutClient`): prompt rendering, the sanitiser that strips a
    Markdown code fence from the model's reply, and the assembly of the stored roadmap
    document from the decoded reply. The language model, `json.loads`, `json.dumps`
    and `repr` are oracles carried by an `Env`; ids and clock readings are inputs. */
module Scout {

  import opened Wrappers
  import opened Json
  import opened Text
  import Prompts

  /** What one `generate_content` call gives back: the reply text, or an exception. */
  datatype Completion = Answer(text: string) | Failed

  /** The engine's collaborators. `loads` gives `None` where `json.loads` raises. */
  datatype Env = Env(
    complete: string -> Completion,
    loads: string -> Option<Json>,
    dumpsIndented: Json -> string,
    repr: Json -> string)

  /** Why an engine call raised. `MalformedOutput` is the `JSONDecodeError` branch
      ("Failed to parse roadmap response"); the others end in the generic handler. */
  datatype EngineError =
    | MissingSkillField   // a skill dictionary without `skill`, `score` or `level`
    | UpstreamFailed      // the model call raised
    | MalformedOutput     // the cleaned reply is not JSON
    | NotAnObject         // the reply decodes to something other than an object
    | NotSerializable     // the existing roadmap holds a value `json.dumps` rejects

  /** The dictionary an engine call returns, without its `processing_time_seconds`. */
  datatype Generation = Generation(roadmap: Dict, message: string)

  const GeneratedMessage := "Roadmap generated successfully"
  const UpdatedMessage := "Roadmap updated successfully"

  // ---------------------------------------------------------------------------
  // Prompt rendering

  predicate HasSkillFields(skill: Dict)
  {
    "skill" in skill && "score" in skill && "level" in skill
  }

  /** `f"- {skill['skill']}: Level {skill['score']}/10 ({skill['level']})"`; `None` where
      a key is missing and the subscript raises. The line opens with the skill's name,
      closes with its level, and what lies between "Level " and "/10" is its score. */
  function SkillLine(skill: Dict, repr: Json -> string): (r: Option<string>)
    ensures r.Some? <==> HasSkillFields(skill)
    ensures r.Some? ==>
      var head := "- " + Display(skill["skill"], repr) + ": Level ";
      var tail := "/10 (" + Display(skill["level"], repr) + ")";
      && StartsWith(r.value, head)
      && EndsWith(r.value, tail)
      && |head| + |tail| <= |r.value|
      && r.value[|head|..|r.value| - |tail|] == Display(skill["score"], repr)
  {
    if HasSkillFields(skill) then
      var head := "- " + Display(skill["skill"], repr) + ": Level ";
      var score := Display(skill["score"], repr);
      var tail := "/10 (" + Display(skill["level"], repr) + ")";
      var line := head + score + tail;
      assert line[..|head|] == head;
      assert line[|line| - |tail|..] == tail;
      assert line[|head|..|line| - |tail|] == score;
      Some(line)
    else None
  }

  /** The list comprehension over `current_skills`: one line per skill, in input order. */
  function SkillLines(skills: seq<Dict>, repr: Json -> string): (r: Option<seq<string>>)
    ensures r.Some? <==> forall i :: 0 <= i < |skills| ==> HasSkillFields(skills[i])
    ensures r.Some? ==> |r.value| == |skills|
    ensures r.Some? ==> forall i :: 0 <= i < |skills| ==> Some(r.value[i]) == SkillLine(skills[i], repr)
    decreases |skills|
  {
    if skills == [] then Some([])
    else
      var first := SkillLine(skills[0], repr);
      var rest := SkillLines(skills[1..], repr);
      if first.Some? && rest.Some? then
        Some([first.value] + rest.value)
      else
        assert !HasSkillFields(skills[0]) || !HasSkillFields(skills[1..][
          if rest.None? then PickMissing(skills[1..]) else 0] ) by {
          if rest.None? {
            PickMissingIsMissing(skills[1..]);
          }
        }
        None
  }

  /** The position of a skill dictionary that lacks a field, when there is one. */
  function PickMissing(skills: seq<Dict>): (i: nat)
    ensures (exists j :: 0 <= j < |skills| && !HasSkillFields(skills[j])) ==> i < |skills| && !HasSkillFields(skills[i])
    decreases |skills|
  {
    if skills == [] then 0
    else if !HasSkillFields(skills[0]) then 0
    else
      assert forall j :: 1 <= j < |skills| ==> skills[j] == skills[1..][j - 1];
      1 + PickMissing(skills[1..])
  }

  lemma PickMissingIsMissing(skills: seq<Dict>)
    requires exists j :: 0 <= j < |skills| && !HasSkillFields(skills[j])
    ensures PickMissing(skills) < |skills| && !HasSkillFields(skills[PickMissing(skills)])
  {
  }

  /** `"\n".join(...)` of the skill lines. */
  function SkillsSummary(lines: seq<string>): string
  {
    Join("\n", lines)
  }

  /** The preferences block, given the texts shown for the style and the hours. */
  function PreferencesBlock(style: string, hours: string): string
  {
    "\nLearning Preferences:\n- Learning Style: " + style + "\n- Time Commitment: " + hours + " hours/week\n"
  }

  /** `preferences_text`: the block is present only for a truthy (present and
      non-empty) dictionary, and each value falls back to its default only when
      its key is absent. */
  function PreferencesText(prefs: Option<Dict>, repr: Json -> string): (r: string)
    ensures r != "" <==> prefs.Some? && prefs.value != map[]
    ensures r != "" ==> r == PreferencesBlock(
      Display(GetOr(prefs.value, "learning_style", VStr("mixed")), repr),
      Display(GetOr(prefs.value, "time_commitment_hours_per_week", VInt(10)), repr))
  {
    if prefs.Some? && Truthy(VDict(prefs.value)) then
      var style := GetOr(prefs.value, "learning_style", VStr("mixed"));
      var hours := GetOr(prefs.value, "time_commitment_hours_per_week", VInt(10));
      PreferencesBlock(Display(style, repr), Display(hours, repr))
    else ""
  }

  /** A dictionary without `learning_style` renders exactly as one that says "mixed". */
  lemma AbsentStyleMeansMixed(prefs: Dict, repr: Json -> string)
    requires prefs != map[] && "learning_style" !in prefs
    ensures PreferencesText(Some(prefs), repr) == PreferencesText(Some(prefs["learning_style" := VStr("mixed")]), repr)
  {
    var explicit := prefs["learning_style" := VStr("mixed")];
    assert "learning_style" in explicit;
    assert GetOr(explicit, "time_commitment_hours_per_week", VInt(10)) == GetOr(prefs, "time_commitment_hours_per_week", VInt(10));
  }

  /** A dictionary without the weekly hours renders exactly as one that says 10. */
  lemma AbsentHoursMeanTen(prefs: Dict, repr: Json -> string)
    requires prefs != map[] && "time_commitment_hours_per_week" !in prefs
    ensures PreferencesText(Some(prefs), repr) == PreferencesText(Some(prefs["time_commitment_hours_per_week" := VInt(10)]), repr)
  {
    var explicit := prefs["time_commitment_hours_per_week" := VInt(10)];
    assert "time_commitment_hours_per_week" in explicit;
    assert GetOr(explicit, "learning_style", VStr("mixed")) == GetOr(prefs, "learning_style", VStr("mixed"));
  }

  /** With neither key present the block shows "mixed" and "10". */
  lemma DefaultPreferences(prefs: Dict, repr: Json -> string)
    requires prefs != map[]
    requires "learning_style" !in prefs && "time_commitment_hours_per_week" !in prefs
    ensures PreferencesText(Some(prefs), repr) == PreferencesBlock("mixed", "10")
  {
    assert NatToString(10) == NatToString(1) + [DigitChar(0)];
    assert Display(VInt(10), repr) == "10";
  }

  /** `_build_roadmap_prompt`: the goal, the skill summary and the preferences block
      spliced into the fixed instructions; `None` where a skill dictionary lacks a
      field and the comprehension raises. */
  function BuildRoadmapPrompt(careerGoal: string, skills: seq<Dict>, prefs: Option<Dict>, repr: Json -> string): (r: Option<string>)
    ensures r.Some? <==> forall i :: 0 <= i < |skills| ==> HasSkillFields(skills[i])
  {
    var lines := SkillLines(skills, repr);
    if lines.Some? then
      Some(Prompts.Wording(Prompts.RoadmapIntro) + careerGoal + "\nCURRENT SKILLS: " + SkillsSummary(lines.value) + "\n"
        + PreferencesText(prefs, repr) + Prompts.Wording(Prompts.RoadmapInstructions) + careerGoal + Prompts.Wording(Prompts.RoadmapOutputFormat))
    else None
  }

  /** With skill names and levels free of line breaks, the summary holds exactly one
      line per skill, in input order. */
  lemma SkillLinesInOrder(skills: seq<Dict>, repr: Json -> string)
    requires |skills| > 0
    requires SkillLines(skills, repr).Some?
    requires forall i :: 0 <= i < |skills| ==> '\n' !in SkillLine(skills[i], repr).value
    ensures Split(SkillsSummary(SkillLines(skills, repr).value), '\n') == SkillLines(skills, repr).value
  {
    var lines := SkillLines(skills, repr).value;
    forall i | 0 <= i < |lines|
      ensures '\n' !in lines[i]
    {
      assert Some(lines[i]) == SkillLine(skills[i], repr);
    }
    SplitJoin(lines, '\n');
  }

  // ---------------------------------------------------------------------------
  // The sanitiser

  /** `s[len(p):]` when `s.startswith(p)`, else `s`. */
  function DropPrefix(s: string, p: string): string
  {
    if StartsWith(s, p) then s[|p|..] else s
  }

  /** `s[:-len(p)]` when `s.endswith(p)`, else `s`. */
  function DropSuffix(s: string, p: string): string
  {
    if EndsWith(s, p) then s[..|s| - |p|] else s
  }

  /** The cleaned reply: strip, drop one leading "```json", then one leading "```",
      then one trailing "```", and strip again. */
  function Cleaned(reply: string): (r: string)
    ensures IsStripped(r)
  {
    Strip(DropSuffix(DropPrefix(DropPrefix(Strip(reply), "```json"), "```"), "```"))
  }

  /** Text that is already stripped and carries no fence at either end is returned
      unchanged. */
  lemma PlainTextIsUnchanged(reply: string)
    requires IsStripped(reply) && !StartsWith(reply, "```") && !EndsWith(reply, "```")
    ensures Cleaned(reply) == reply
  {
    if |reply| >= 7 {
      assert reply[..7][..3] == reply[..3];
    }
    assert Strip(reply) == reply;
    assert DropPrefix(reply, "```json") == reply;
    assert DropPrefix(reply, "```") == reply;
    assert DropSuffix(reply, "```") == reply;
  }

  /** The sanitiser block of `generate_roadmap` and `update_roadmap`, which reassigns the
      reply text step by step. */
  method Sanitise(reply: string) returns (text: string)
    ensures text == Cleaned(reply)
  {
    text := Strip(reply);
    ghost var stripped := text;
    if StartsWith(text, "```json") {
      text := text[7..];
    }
    assert text == DropPrefix(stripped, "```json");
    ghost var unopened := text;
    if StartsWith(text, "```") {
      text := text[3..];
    }
    assert text == DropPrefix(unopened, "```");
    ghost var unfenced := text;
    if EndsWith(text, "```") {
      text := text[..|text| - 3];
    }
    assert text == DropSuffix(unfenced, "```");
    text := Strip(text);
  }

  /** "```json" + j + "```" is already stripped and loses exactly its opening fence. */
  lemma JsonFenceOpens(j: string)
    ensures IsStripped("```json" + j + "```")
    ensures DropPrefix("```json" + j + "```", "```json") == j + "```"
  {
    var s := "```json" + j + "```";
    assert s[0] == '`' && s[|s| - 1] == '`';
    assert s[..7] == "```json";
    assert s[7..] == j + "```";
  }

  /** The one way `j + "```"` can open with a fence when `j` does not: `j` is made of
      fewer than three backticks, which the closing fence completes. */
  lemma BacktickPayload(j: string)
    requires !StartsWith(j, "```") && StartsWith(j + "```", "```")
    ensures DropPrefix(j + "```", "```") == j
    ensures !EndsWith(j, "```") && IsStripped(j)
  {
    var a := j + "```";
    PrefixOfConcat(j, "```", 3);
    assert |j| < 3;
    assert forall i :: 0 <= i < |a| ==> a[i] == '`' by {
      forall i | 0 <= i < |a|
        ensures a[i] == '`'
      {
        if i < 3 {
          assert a[i] == a[..3][i];
        } else {
          assert a[i] == "```"[i - |j|];
        }
      }
    }
    assert a[3..] == j by {
      forall i | 0 <= i < |j|
        ensures a[3..][i] == j[i]
      {
        assert j[i] == a[i];
        assert a[3..][i] == a[i + 3];
      }
    }
    assert IsStripped(j) by {
      if j != [] {
        assert j[0] == a[0] && j[|j| - 1] == a[|j| - 1];
      }
    }
  }

  /** A reply fenced as "```json" ... "```" cleans to the stripped payload, provided the
      payload does not itself open with a fence. */
  lemma JsonFenceIsRemoved(j: string)
    requires !StartsWith(j, "```")
    ensures Cleaned("```json" + j + "```") == Strip(j)
  {
    JsonFenceOpens(j);
    var a := j + "```";
    if StartsWith(a, "```") {
      BacktickPayload(j);
    } else {
      ConcatEndsWith(j, "```");
      assert a[..|a| - 3] == j;
    }
  }

  /** A reply fenced as "```" ... "```" cleans to the stripped payload, provided the
      payload does not begin with "json". */
  lemma PlainFenceIsRemoved(j: string)
    requires !StartsWith(j, "json")
    ensures Cleaned("```" + j + "```") == Strip(j)
  {
    var s := "```" + j + "```";
    assert s[0] == '`' && s[|s| - 1] == '`';
    assert IsStripped(s);
    assert !StartsWith(s, "```json") by {
      if |j| >= 4 {
        assert j[..4] == s[3..7];
        assert s[..7][3..] == s[3..7];
      } else if |j| >= 1 {
        assert s[3 + |j|] == '`';
        assert s[..7][3 + |j|] == s[3 + |j|];
      }
    }
    assert s[..3] == "```";
    var a := s[3..];
    assert a == j + "```";
    assert EndsWith(a, "```");
    assert a[..|a| - 3] == j;
  }

  /** A payload whose stripped form opens with `{` opens with whitespace or `{`. */
  lemma PayloadOpening(j: string)
    requires Strip(j) != [] && Strip(j)[0] == '{'
    ensures j != [] && (IsSpace(j[0]) || j[0] == '{')
  {
    if j != [] && !IsSpace(j[0]) {
      assert TrimLeft(j) == j;
      assert TrimRight(j)[0] == j[0];
    }
  }

  /** Text opening with whitespace or `{` opens with neither fence nor "json". */
  lemma NoFenceAtStart(j: string)
    requires j != [] && (IsSpace(j[0]) || j[0] == '{')
    ensures !StartsWith(j, "```") && !StartsWith(j, "json")
  {
    if |j| >= 3 {
      assert j[..3][0] == j[0];
    }
    if |j| >= 4 {
      assert j[..4][0] == j[0];
    }
  }

  /** Bare object text is only stripped by the sanitiser. */
  lemma BareObjectIsStripped(j: string)
    requires Strip(j) != [] && Strip(j)[0] == '{' && Strip(j)[|Strip(j)| - 1] == '}'
    ensures Cleaned(j) == Strip(j)
  {
    var t := Strip(j);
    if |t| >= 7 {
      assert t[..7][0] == t[0];
    }
    if |t| >= 3 {
      assert t[..3][0] == t[0];
      assert t[|t| - 3..][2] == t[|t| - 1];
    }
    assert DropSuffix(DropPrefix(DropPrefix(t, "```json"), "```"), "```") == t;
  }

  /** Text that is a JSON object (after stripping) cleans to the same string whether it
      arrives bare, fenced as "```json" or fenced as "```". */
  lemma FencesAreTransparent(j: string)
    requires Strip(j) != [] && Strip(j)[0] == '{' && Strip(j)[|Strip(j)| - 1] == '}'
    ensures Cleaned("```json" + j + "```") == Cleaned(j)
    ensures Cleaned("```" + j + "```") == Cleaned(j)
  {
    PayloadOpening(j);
    NoFenceAtStart(j);
    BareObjectIsStripped(j);
    JsonFenceIsRemoved(j);
    PlainFenceIsRemoved(j);
  }

  /** One pass over "``` ```x```" removes the outer fence and leaves an inner one. */
  lemma FirstPassLeavesFence()
    ensures Cleaned("``` ```x```") == "```x"
  {
    var s := "``` ```x```";
    assert IsStripped(s);
    assert s[..7][3] == s[3] == ' ';
    assert !StartsWith(s, "```json");
    assert StartsWith(s, "```");
    var a := s[3..];
    assert a == " ```x```";
    assert EndsWith(a, "```");
    var b := a[..|a| - 3];
    assert b == " ```x";
    assert TrimLeft(b) == TrimLeft(b[1..]);
    assert b[1..] == "```x";
    assert IsStripped("```x");
  }

  /** A second pass removes the inner fence. */
  lemma SecondPassRemovesFence()
    ensures Cleaned("```x") == "x"
  {
    var c := "```x";
    assert IsStripped(c);
    assert !StartsWith(c, "```json");
    assert c[..3] == "```";
    assert c[3..] == "x";
    assert !EndsWith("x", "```");
    assert IsStripped("x");
  }

  /** The sanitiser is not idempotent: a second pass can remove a second fence. */
  lemma CleanedIsNotIdempotent()
    ensures Cleaned("``` ```x```") == "```x"
    ensures Cleaned(Cleaned("``` ```x```")) == "x"
  {
    FirstPassLeavesFence();
    SecondPassRemovesFence();
  }

  // ---------------------------------------------------------------------------
  // Decoding the reply and assembling the document

  /** The outcome of asking the model for `prompt` and decoding its cleaned reply as a
      JSON object: the reference definition both engine methods are proved against. */
  function Decoded(env: Env, prompt: string): (r: Result<Dict, EngineError>)
    ensures r == Err(UpstreamFailed) <==> env.complete(prompt).Failed?
    ensures r.Ok? ==> env.complete(prompt).Answer? && env.loads(Cleaned(env.complete(prompt).text)) == Some(VDict(r.value))
    ensures r.Err? ==> r.error in {UpstreamFailed, MalformedOutput, NotAnObject}
    ensures env.complete(prompt).Answer? ==>
      var v := env.loads(Cleaned(env.complete(prompt).text));
      && (v.None? ==> r == Err(MalformedOutput))
      && (v.Some? && !v.value.VDict? ==> r == Err(NotAnObject))
      && (v.Some? && v.value.VDict? ==> r == Ok(v.value.fields))
  {
    match env.complete(prompt)
    case Failed => Err(UpstreamFailed)
    case Answer(text) =>
      match env.loads(Cleaned(text))
      case None => Err(MalformedOutput)
      case Some(v) => if v.VDict? then Ok(v.fields) else Err(NotAnObject)
  }

  /** Decoding sees a reply only through its cleaned text. */
  lemma DecodedSeesCleanedText(e1: Env, e2: Env, prompt: string)
    requires e1.loads == e2.loads
    requires e1.complete(prompt).Answer? && e2.complete(prompt).Answer?
    requires Cleaned(e1.complete(prompt).text) == Cleaned(e2.complete(prompt).text)
    ensures Decoded(e1, prompt) == Decoded(e2, prompt)
  {
  }

  /** Two models whose replies differ only by a fence around a JSON object decode alike. */
  lemma FencedReplyDecodesAlike(bare: Env, fenced: Env, prompt: string, j: string, tag: string)
    requires tag == "```json" || tag == "```"
    requires bare.loads == fenced.loads
    requires bare.complete(prompt) == Answer(j) && fenced.complete(prompt) == Answer(tag + j + "```")
    requires Strip(j) != [] && Strip(j)[0] == '{' && Strip(j)[|Strip(j)| - 1] == '}'
    ensures Decoded(fenced, prompt) == Decoded(bare, prompt)
  {
    FencesAreTransparent(j);
    assert Cleaned(tag + j + "```") == Cleaned(j);
    DecodedSeesCleanedText(fenced, bare, prompt);
  }

  /** The ten keys of a generated roadmap document. */
  const RoadmapKeys: set<string> := {"id", "user_id", "title", "career_goal", "estimated_weeks", "modules",
    "current_module", "progress_percentage", "created_at", "updated_at"}

  /** The document `generate_roadmap` builds from the decoded object `data`. */
  function AssembleRoadmap(data: Dict, careerGoal: string, userId: Json, id: string, createdAt: string, updatedAt: string): (r: Dict)
    ensures r.Keys == RoadmapKeys
  {
    var m: map<string, Value> := map[
      "id" := VStr(id),
      "user_id" := userId,
      "title" := GetOr(data, "title", VStr("Roadmap to " + careerGoal)),
      "career_goal" := VStr(careerGoal),
      "estimated_weeks" := GetOr(data, "estimated_weeks", VInt(12)),
      "modules" := GetOr(data, "modules", ListOf([])),
      "current_module" := VInt(0),
      "progress_percentage" := VFloat(0.0),
      "created_at" := VStr(createdAt),
      "updated_at" := VStr(updatedAt)];
    m
  }

  /** The identity fields come from the caller: the fresh id, the user, the goal and the
      two clock readings. */
  lemma AssembledIdentity(data: Dict, careerGoal: string, userId: Json, id: string, createdAt: string, updatedAt: string)
    ensures var r := AssembleRoadmap(data, careerGoal, userId, id, createdAt, updatedAt);
      r["id"] == VStr(id) && r["user_id"] == userId && r["career_goal"] == VStr(careerGoal)
      && r["created_at"] == VStr(createdAt) && r["updated_at"] == VStr(updatedAt)
  {
  }

  /** The title, the length and the modules come from the model's object, each with its
      default where the key is absent, and progress starts at module 0 and 0 percent. */
  lemma AssembledContent(data: Dict, careerGoal: string, userId: Json, id: string, createdAt: string, updatedAt: string)
    ensures var r := AssembleRoadmap(data, careerGoal, userId, id, createdAt, updatedAt);
      && r["title"] == (if "title" in data then data["title"] else VStr("Roadmap to " + careerGoal))
      && r["estimated_weeks"] == (if "estimated_weeks" in data then data["estimated_weeks"] else VInt(12))
      && r["modules"] == (if "modules" in data then data["modules"] else VList([]))
      && r["current_module"] == VInt(0) && r["progress_percentage"] == VFloat(0.0)
  {
  }

  /** The keys of the decoded object that assembly reads. */
  predicate AgreeOnModelFields(a: Dict, b: Dict)
  {
    forall k :: k in {"title", "estimated_weeks", "modules"} ==> (k in a <==> k in b) && (k in a ==> a[k] == b[k])
  }

  /** Everything else the model returns, including its own `id`, `user_id` or
      `career_goal`, is dropped: objects that agree on the three read keys give the
      same document. */
  lemma AssemblyIgnoresOtherFields(a: Dict, b: Dict, careerGoal: string, userId: Json, id: string, createdAt: string, updatedAt: string)
    requires AgreeOnModelFields(a, b)
    ensures AssembleRoadmap(a, careerGoal, userId, id, createdAt, updatedAt) == AssembleRoadmap(b, careerGoal, userId, id, createdAt, updatedAt)
  {
    var ra := AssembleRoadmap(a, careerGoal, userId, id, createdAt, updatedAt);
    var rb := AssembleRoadmap(b, careerGoal, userId, id, createdAt, updatedAt);
    assert "title" in {"title", "estimated_weeks", "modules"};
    assert "estimated_weeks" in {"title", "estimated_weeks", "modules"};
    assert "modules" in {"title", "estimated_weeks", "modules"};
    assert forall k :: k in ra ==> rb[k] == ra[k];
  }

  /** The shared middle of both engine methods: ask the model, sanitise its reply and
      decode it, insisting on an object (`.get` and item assignment need one). */
  method DecodeReply(env: Env, prompt: string) returns (r: Result<Dict, EngineError>)
    ensures r == Decoded(env, prompt)
  {
    var response := env.complete(prompt);
    if response.Failed? {
      return Err(UpstreamFailed);
    }
    var text := Sanitise(response.text);
    var data := env.loads(text);
    if data.None? {
      return Err(MalformedOutput);
    }
    if !data.value.VDict? {
      return Err(NotAnObject);
    }
    r := Ok(data.value.fields);
  }

  /** The outcome of `generate_roadmap`: no prompt where a skill lacks a field, the
      decoding error where the reply is unusable, and otherwise the assembled document.
      `id` is the fresh identifier and `createdAt`, `updatedAt` the two clock readings. */
  function Generated(env: Env, careerGoal: string, skills: seq<Dict>, prefs: Option<Dict>, userId: Json,
                     id: string, createdAt: string, updatedAt: string): (r: Result<Generation, EngineError>)
    ensures r == Err(MissingSkillField) <==> !forall i :: 0 <= i < |skills| ==> HasSkillFields(skills[i])
    ensures r.Err? ==> r.error != NotSerializable
    ensures r.Ok? ==> r.value.message == GeneratedMessage
  {
    var prompt := BuildRoadmapPrompt(careerGoal, skills, prefs, env.repr);
    assert prompt.Some? <==> forall i :: 0 <= i < |skills| ==> HasSkillFields(skills[i]);
    GeneratedFrom(env, prompt, careerGoal, userId, id, createdAt, updatedAt)
  }

  /** The outcome once the prompt is rendered, or found missing. */
  function GeneratedFrom(env: Env, prompt: Option<string>, careerGoal: string, userId: Json,
                         id: string, createdAt: string, updatedAt: string): (r: Result<Generation, EngineError>)
    ensures r == Err(MissingSkillField) <==> prompt.None?
    ensures r.Err? ==> r.error != NotSerializable
    ensures r.Ok? ==> r.value.message == GeneratedMessage
  {
    match prompt
    case None => Err(MissingSkillField)
    case Some(text) =>
      match Decoded(env, text)
      case Err(e) => Err(e)
      case Ok(data) => Ok(Generation(AssembleRoadmap(data, careerGoal, userId, id, createdAt, updatedAt), GeneratedMessage))
  }

  /** Once the prompt exists, a decoding error is passed through unchanged, and a
      decoded object yields the assembled ten-key document for the fresh id and the
      caller's user. */
  lemma GeneratedFromOutcome(env: Env, text: string, careerGoal: string, userId: Json,
                             id: string, createdAt: string, updatedAt: string)
    ensures var d := Decoded(env, text);
      var g := GeneratedFrom(env, Some(text), careerGoal, userId, id, createdAt, updatedAt);
      && (d.Err? ==> g == Err(d.error))
      && (d.Ok? ==> g.Ok? && g.value.roadmap == AssembleRoadmap(d.value, careerGoal, userId, id, createdAt, updatedAt)
                    && g.value.roadmap.Keys == RoadmapKeys
                    && g.value.roadmap["id"] == VStr(id) && g.value.roadmap["user_id"] == userId)
  {
    var d := Decoded(env, text);
    if d.Ok? {
      AssembledIdentity(d.value, careerGoal, userId, id, createdAt, updatedAt);
    }
  }

  /** Where every skill carries its fields, `generate_roadmap` passes a decoding error of
      the rendered prompt through, and otherwise answers the assembled document. */
  lemma GeneratedOutcome(env: Env, careerGoal: string, skills: seq<Dict>, prefs: Option<Dict>, userId: Json,
                         id: string, createdAt: string, updatedAt: string)
    requires forall i :: 0 <= i < |skills| ==> HasSkillFields(skills[i])
    ensures BuildRoadmapPrompt(careerGoal, skills, prefs, env.repr).Some?
    ensures var d := Decoded(env, BuildRoadmapPrompt(careerGoal, skills, prefs, env.repr).value);
      var g := Generated(env, careerGoal, skills, prefs, userId, id, createdAt, updatedAt);
      && (d.Err? ==> g == Err(d.error))
      && (d.Ok? ==> g.Ok? && g.value.roadmap == AssembleRoadmap(d.value, careerGoal, userId, id, createdAt, updatedAt))
  {
    var prompt := BuildRoadmapPrompt(careerGoal, skills, prefs, env.repr);
    assert Generated(env, careerGoal, skills, prefs, userId, id, createdAt, updatedAt) != Err(MissingSkillField);
    GeneratedFromOutcome(env, prompt.value, careerGoal, userId, id, createdAt, updatedAt);
  }

  /** `generate_roadmap`: render the prompt, ask the model, clean and decode its reply,
      and assemble the document. */
  method GenerateRoadmap(env: Env, careerGoal: string, skills: seq<Dict>, prefs: Option<Dict>, userId: Json,
                         id: string, createdAt: string, updatedAt: string)
    returns (r: Result<Generation, EngineError>)
    ensures r == Generated(env, careerGoal, skills, prefs, userId, id, createdAt, updatedAt)
  {
    var prompt := BuildRoadmapPrompt(careerGoal, skills, prefs, env.repr);
    if prompt.None? {
      return Err(MissingSkillField);
    }
    var data := DecodeReply(env, prompt.value);
    if data.Err? {
      return Err(data.error);
    }
    var roadmap := AssembleRoadmap(data.value, careerGoal, userId, id, createdAt, updatedAt);
    r := Ok(Generation(roadmap, GeneratedMessage));
  }

  // ---------------------------------------------------------------------------
  // Update

  /** The update prompt; `None` where `json.dumps(existing, indent=2)` raises because the
      existing roadmap holds a value JSON cannot represent. */
  function UpdatePrompt(userPrompt: string, existing: map<string, Value>, dumpsIndented: Json -> string): (r: Option<string>)
    ensures r.Some? <==> JsonCompatible(VDict(existing))
  {
    var doc := VDict(existing);
    if JsonCompatible(doc) then
      var text := Prompts.Wording(Prompts.UpdateIntro) + dumpsIndented(doc) + Prompts.Wording(Prompts.UpdateRequestLead) + userPrompt + "\"\n";
      Some(text + Prompts.Wording(Prompts.UpdateInstructions))
    else None
  }

  /** The decoded object after `update_roadmap` forces its identity onto it: `id` is the
      roadmap's id and `updated_at` the clock reading, and every other key keeps its
      value. */
  function WithIdentity(doc: Dict, roadmapId: string, now: string): (r: Dict)
    ensures r.Keys == doc.Keys + {"id", "updated_at"}
    ensures "id" in r && r["id"] == VStr(roadmapId)
    ensures "updated_at" in r && r["updated_at"] == VStr(now)
    ensures forall k :: k in doc && k != "id" && k != "updated_at" ==> r[k] == doc[k]
  {
    doc["id" := VStr(roadmapId)]["updated_at" := VStr(now)]
  }

  /** The outcome of `update_roadmap`: `NotSerializable` where the existing roadmap
      cannot be written into the prompt, the decoding error where the reply is unusable,
      and otherwise the decoded object carrying the roadmap's identity. */
  function Updated(env: Env, roadmapId: string, userPrompt: string, existing: map<string, Value>, now: string): (r: Result<Generation, EngineError>)
    ensures r.Err? ==> r.error != MissingSkillField
    ensures r.Ok? ==>
      && r.value.message == UpdatedMessage
      && "id" in r.value.roadmap && r.value.roadmap["id"] == VStr(roadmapId)
      && "updated_at" in r.value.roadmap && r.value.roadmap["updated_at"] == VStr(now)
  {
    match UpdatePrompt(userPrompt, existing, env.dumpsIndented)
    case None => Err(NotSerializable)
    case Some(prompt) =>
      match Decoded(env, prompt)
      case Err(e) => Err(e)
      case Ok(data) => Ok(Generation(WithIdentity(data, roadmapId, now), UpdatedMessage))
  }

  /** The update fails for want of a prompt exactly when the existing roadmap is not
      JSON; every other failure comes from the model or its reply. */
  lemma UnserializableOnly(env: Env, roadmapId: string, userPrompt: string, existing: map<string, Value>, now: string)
    ensures Updated(env, roadmapId, userPrompt, existing, now) == Err(NotSerializable) <==> !JsonCompatible(VDict(existing))
  {
    var prompt := UpdatePrompt(userPrompt, existing, env.dumpsIndented);
    if prompt.Some? {
      assert Decoded(env, prompt.value) != Err(NotSerializable);
    }
  }

  /** Where the existing roadmap is JSON, `update_roadmap` passes a decoding error through
      unchanged, and otherwise answers the decoded object with `id` and `updated_at`
      forced and every other decoded key kept with its value. */
  lemma UpdatedOutcome(env: Env, roadmapId: string, userPrompt: string, existing: map<string, Value>, now: string)
    requires JsonCompatible(VDict(existing))
    ensures UpdatePrompt(userPrompt, existing, env.dumpsIndented).Some?
    ensures var d := Decoded(env, UpdatePrompt(userPrompt, existing, env.dumpsIndented).value);
      var u := Updated(env, roadmapId, userPrompt, existing, now);
      && (d.Err? ==> u == Err(d.error))
      && (d.Ok? ==>
            && u.Ok? && u.value.message == UpdatedMessage
            && u.value.roadmap.Keys == d.value.Keys + {"id", "updated_at"}
            && u.value.roadmap["id"] == VStr(roadmapId) && u.value.roadmap["updated_at"] == VStr(now)
            && forall k :: k in d.value && k != "id" && k != "updated_at" ==> u.value.roadmap[k] == d.value[k])
  {
  }

  /** `update_roadmap`: ask the model to revise `existing`, decode its reply and force
      `id` and `updated_at` onto the decoded object. */
  method UpdateRoadmap(env: Env, roadmapId: string, userPrompt: string, existing: map<string, Value>, now: string)
    returns (r: Result<Generation, EngineError>)
    ensures r == Updated(env, roadmapId, userPrompt, existing, now)
  {
    var prompt := UpdatePrompt(userPrompt, existing, env.dumpsIndented);
    if prompt.None? {
      return Err(NotSerializable);
    }
    var data := DecodeReply(env, prompt.value);
    if data.Err? {
      return Err(data.error);
    }
    r := Ok(Generation(WithIdentity(data.value, roadmapId, now), UpdatedMessage));
  }
}
