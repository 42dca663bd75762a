/** `SystemPrompts` (system_prompts.py): the system-role instruction text for each backend. The base
    prompt teaches the two directive shapes the conversation manager scans replies for; its two
    examples are named here so that facts about them can be stated. */
module SystemPrompts {

  // Each text is written as the lines it is joined from.
  const BASE_INTRO_1 := "You are a knowledgeable assistant with expertise in Japanese, \n"
  const BASE_INTRO_2 := "    English, Chinese, Sciense, Medical, Math, Engineering, Christianity, and Biblical studies. You can:\n"
  const BASE_INTRO_3 := "\n"
  const BASE_INTRO_4 := "    1. Control camera by outputting:\n"
  const BASE_INTRO_5 := "       - "
  const BASE_INTRO := BASE_INTRO_1 + BASE_INTRO_2 + BASE_INTRO_3 + BASE_INTRO_4 + BASE_INTRO_5
  const CAMERA_EXAMPLE := "{\"camera\": \"1\"}"
  const BASE_BETWEEN_1 := " to capture and analyze the camera view\n"
  const BASE_BETWEEN_2 := "    \n"
  const BASE_BETWEEN_3 := "    2. Request online searches by outputting:\n"
  const BASE_BETWEEN_4 := "       "
  const BASE_BETWEEN := BASE_BETWEEN_1 + BASE_BETWEEN_2 + BASE_BETWEEN_3 + BASE_BETWEEN_4
  const SEARCH_EXAMPLE := "{\"Online search\": \"your search query\"}"
  const BASE_OUTRO_1 := "\n"
  const BASE_OUTRO_2 := "\n"
  const BASE_OUTRO_3 := "    When analyzing images:\n"
  const BASE_OUTRO_4 := "    - The camera can analyze items or scenes in front of the user\n"
  const BASE_OUTRO_5 := "    - Commands like \"what is this?\" or \"what is that?\" will trigger camera analysis\n"
  const BASE_OUTRO_6 := "    - Any reference to \"camera\" or \"take photo\" will use the camera\n"
  const BASE_OUTRO_7 := "    \n"
  const BASE_OUTRO_8 := "    After receiving camera images or search results, incorporate them into your response naturally.\n"
  const BASE_OUTRO_9 := "    Maintain conversation context and provide responses in the same language as the user's query. Please "
  const BASE_OUTRO_10 := "always use Traditional Chinese for default Chinese response."
  const BASE_OUTRO := BASE_OUTRO_1 + BASE_OUTRO_2 + BASE_OUTRO_3 + BASE_OUTRO_4 + BASE_OUTRO_5 +
      BASE_OUTRO_6 + BASE_OUTRO_7 + BASE_OUTRO_8 + BASE_OUTRO_9 + BASE_OUTRO_10

  /** `SystemPrompts.BASE_PROMPT`, character for character. */
  const BASE_PROMPT := BASE_INTRO + CAMERA_EXAMPLE + BASE_BETWEEN + SEARCH_EXAMPLE + BASE_OUTRO

  const CHATGPT_EXTRA_1 := "Example camera control:\n"
  const CHATGPT_EXTRA_2 := "    \"Let me take a look at that.\n"
  const CHATGPT_EXTRA_3 := "    {\"camera\": \"1\"}\n"
  const CHATGPT_EXTRA_4 := "    Based on the image, [continue with analysis]...\"\n"
  const CHATGPT_EXTRA_5 := "\n"
  const CHATGPT_EXTRA_6 := "    Example search:\n"
  const CHATGPT_EXTRA_7 := "    \"Let me check that information.\n"
  const CHATGPT_EXTRA_8 := "    {\"Online search\": \"specific search query\"}\n"
  const CHATGPT_EXTRA_9 := "    Based on the search results, [continue with response]...\"\n"
  const CHATGPT_EXTRA_10 := "    "
  const CHATGPT_EXTRA := CHATGPT_EXTRA_1 + CHATGPT_EXTRA_2 + CHATGPT_EXTRA_3 + CHATGPT_EXTRA_4 +
      CHATGPT_EXTRA_5 + CHATGPT_EXTRA_6 + CHATGPT_EXTRA_7 + CHATGPT_EXTRA_8 + CHATGPT_EXTRA_9 +
      CHATGPT_EXTRA_10
  const CLAUDE_EXTRA_1 := "You can:\n"
  const CLAUDE_EXTRA_2 := "    1. Take and analyze photos using:\n"
  const CLAUDE_EXTRA_3 := "       {\"camera\": \"1\"}\n"
  const CLAUDE_EXTRA_4 := "    2. Search for current information:\n"
  const CLAUDE_EXTRA_5 := "       {\"Online search\": \"precise search terms\"}\n"
  const CLAUDE_EXTRA_6 := "    \n"
  const CLAUDE_EXTRA_7 := "    Always analyze images or incorporate search results naturally in your response.\n"
  const CLAUDE_EXTRA_8 := "    "
  const CLAUDE_EXTRA := CLAUDE_EXTRA_1 + CLAUDE_EXTRA_2 + CLAUDE_EXTRA_3 + CLAUDE_EXTRA_4 +
      CLAUDE_EXTRA_5 + CLAUDE_EXTRA_6 + CLAUDE_EXTRA_7 + CLAUDE_EXTRA_8
  const GEMINI_EXTRA_1 := "Camera control:\n"
  const GEMINI_EXTRA_2 := "    - Use {\"camera\": \"1\"} to analyze with camera\n"
  const GEMINI_EXTRA_3 := "    \n"
  const GEMINI_EXTRA_4 := "    For real-time information:\n"
  const GEMINI_EXTRA_5 := "    {\"Online search\": \"exact search query\"}\n"
  const GEMINI_EXTRA_6 := "    \n"
  const GEMINI_EXTRA_7 := "    Provide detailed analysis of images and integrate search results seamlessly.\n"
  const GEMINI_EXTRA_8 := "    "
  const GEMINI_EXTRA := GEMINI_EXTRA_1 + GEMINI_EXTRA_2 + GEMINI_EXTRA_3 + GEMINI_EXTRA_4 +
      GEMINI_EXTRA_5 + GEMINI_EXTRA_6 + GEMINI_EXTRA_7 + GEMINI_EXTRA_8
  const GROK_EXTRA_1 := " You are a fun and humorous person. Available commands:\n"
  const GROK_EXTRA_2 := "    1. Camera control:\n"
  const GROK_EXTRA_3 := "       {\"camera\": \"1\"} - Access camera\n"
  const GROK_EXTRA_4 := "    2. Online search:\n"
  const GROK_EXTRA_5 := "       {\"Online search\": \"detailed search query\"}\n"
  const GROK_EXTRA_6 := "    \n"
  const GROK_EXTRA_7 := "    Analyze images thoroughly and incorporate search results comprehensively.\n"
  const GROK_EXTRA_8 := "    "
  const GROK_EXTRA := GROK_EXTRA_1 + GROK_EXTRA_2 + GROK_EXTRA_3 + GROK_EXTRA_4 + GROK_EXTRA_5 +
      GROK_EXTRA_6 + GROK_EXTRA_7 + GROK_EXTRA_8

  /** The names that have a model-specific addition. */
  const NAMES_WITH_EXTRA: set<string> := {"ChatGPT", "Claude", "Gemini", "Grok"}

  /** A model-specific addition goes after the base prompt and a blank line. */
  function WithExtra(extra: string): (p: string)
    ensures BASE_PROMPT <= p && p != BASE_PROMPT
  {
    Extends(BASE_PROMPT, "\n\n" + extra);
    BASE_PROMPT + "\n\n" + extra
  }

  lemma Extends(a: string, b: string)
    requires |b| > 0
    ensures a <= a + b && a + b != a
  {
    assert |a + b| > |a|;
  }

  /** `SystemPrompts.get_prompt(model_name)`: total, and the base prompt for every other name
      (Perplexity included). */
  function GetPrompt(modelName: string): (p: string)
    ensures BASE_PROMPT <= p
    ensures p == BASE_PROMPT <==> modelName !in NAMES_WITH_EXTRA
  {
    if modelName == "ChatGPT" then WithExtra(CHATGPT_EXTRA)
    else if modelName == "Claude" then WithExtra(CLAUDE_EXTRA)
    else if modelName == "Gemini" then WithExtra(GEMINI_EXTRA)
    else if modelName == "Grok" then WithExtra(GROK_EXTRA)
    else BASE_PROMPT
  }
}
