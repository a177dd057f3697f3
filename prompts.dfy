/** The fixed wording of the two prompts the engine sends to the language model. */
module Prompts {

  /** The fixed passages, in the order they appear in their prompt. */
  datatype Passage =
    | RoadmapIntro         // the generation prompt up to the goal
    | RoadmapInstructions  // from after the preferences block to the second mention of the goal
    | RoadmapOutputFormat  // the rest of the output template
    | UpdateIntro          // the update prompt up to the existing roadmap
    | UpdateRequestLead    // between the existing roadmap and the quoted request
    | UpdateInstructions   // after the quoted request

  function Wording(p: Passage): string
  {
    match p
    case RoadmapIntro =>
      "You are Scout, an AI career advisor. Generate a concise learning roadmap.\n\nGOAL: "
    case RoadmapInstructions =>
      "\n"
        + "\n"
        + "CREATE a structured roadmap with 3-5 modules. Each module needs:\n"
        + "- Title, description, estimated hours\n"
        + "- Skills taught (2-4 skills)\n"
        + "- 2-3 quality learning resources (real URLs: YouTube, freeCodeCamp, official docs)\n"
        + "- 1 hands-on project\n"
        + "- Prerequisites (if any)\n"
        + "- Learning outcomes (2-3 points)\n"
        + "\n"
        + "Keep it practical and achievable. Total: 8-16 weeks\n"
        + "\n"
        + "OUTPUT FORMAT (strict JSON):\n"
        + "{\n"
        + "  \"title\": \"Roadmap title\",\n"
        + "  \"career_goal\": \""
    case RoadmapOutputFormat =>
      "\",\n"
        + "  \"estimated_weeks\": <number>,\n"
        + "  \"modules\": [\n"
        + "    {\n"
        + "      \"id\": \"module-1\",\n"
        + "      \"title\": \"Module title\",\n"
        + "      \"description\": \"What this module covers\",\n"
        + "      \"estimated_hours\": <number>,\n"
        + "      \"difficulty\": \"beginner|intermediate|advanced\",\n"
        + "      \"skills_taught\": [\"skill1\", \"skill2\"],\n"
        + "      \"prerequisite_skills\": [\"skill1\"],\n"
        + "      \"learning_outcomes\": [\"outcome1\", \"outcome2\"],\n"
        + "      \"resources\": [\n"
        + "        {\n"
        + "          \"title\": \"Resource title\",\n"
        + "          \"type\": \"video|article|documentation|interactive-lab|book\",\n"
        + "          \"url\": \"https://...\",\n"
        + "          \"duration\": \"2 hours\",\n"
        + "          \"duration_minutes\": 120,\n"
        + "          \"difficulty\": \"beginner|intermediate|advanced\",\n"
        + "          \"description\": \"Brief description\"\n"
        + "        }\n"
        + "      ],\n"
        + "      \"project\": {\n"
        + "        \"title\": \"Project title\",\n"
        + "        \"description\": \"What to build\",\n"
        + "        \"estimated_hours\": <number>,\n"
        + "        \"skills_applied\": [\"skill1\", \"skill2\"],\n"
        + "        \"deliverables\": [\"deliverable1\", \"deliverable2\"],\n"
        + "        \"difficulty\": \"beginner|intermediate|advanced\"\n"
        + "      }\n"
        + "    }\n"
        + "  ]\n"
        + "}\n"
        + "\n"
        + "IMPORTANT: Return ONLY valid JSON, no markdown formatting, no explanation text.\n"
    case UpdateIntro =>
      "You are Scout, an expert career path advisor.\n\nThe user has the following existing roadmap:\n\n"
    case UpdateRequestLead =>
      "\n\nThe user wants to update it with this request:\n\""
    case UpdateInstructions =>
      "\nPlease generate an updated roadmap that incorporates the user's feedback while maintaining the same JSON structure.\n"
        + "\n"
        + "IMPORTANT: Return ONLY valid JSON in the exact same format as the input roadmap, no markdown, no explanation.\n"
  }
}
