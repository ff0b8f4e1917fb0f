/** The `config.yaml` templates: one entry per LLM provider, rendered by
    splicing the shared engine, pipeline and settings sections into the
    provider's file. The bundled file contents are parameters. */
module Templates {
  import opened Util
  import Forms

  datatype TemplateSettings = TemplateSettings(langfuseEnable: bool, loggingLevel: string, development: bool)

  /** A placeholder and the model reference it is bound to. */
  type Binding = (string, string)

  datatype ConfigTemplate = ConfigTemplate(
    key: string,
    name: string,
    description: string,
    pipelineOverrides: seq<Binding>,
    settings: TemplateSettings)

  /** The text of the three shared section files. */
  datatype Sections = Sections(engine: string, pipeline: string, settings: string)

  const DefaultModel: string := "litellm_llm.default"

  /** The six pipeline placeholders. */
  const SqlAnswer: string := "{{LLM_SQL_ANSWER}}"
  const DataAssistance: string := "{{LLM_DATA_ASSISTANCE}}"
  const ChartGeneration: string := "{{LLM_CHART_GENERATION}}"
  const ChartAdjustment: string := "{{LLM_CHART_ADJUSTMENT}}"
  const SqlReasoning: string := "{{LLM_SQL_GENERATION_REASONING}}"
  const FollowupReasoning: string := "{{LLM_FOLLOWUP_SQL_GENERATION_REASONING}}"

  /** The placeholders are pairwise distinct: all but the two chart ones
      differ in length, and those two differ at their thirteenth character. */
  lemma PlaceholdersDistinct()
    ensures SqlAnswer != DataAssistance && SqlAnswer != ChartGeneration && SqlAnswer != ChartAdjustment
    ensures SqlAnswer != SqlReasoning && SqlAnswer != FollowupReasoning
    ensures DataAssistance != ChartGeneration && DataAssistance != ChartAdjustment
    ensures DataAssistance != SqlReasoning && DataAssistance != FollowupReasoning
    ensures ChartGeneration != ChartAdjustment && ChartGeneration != SqlReasoning && ChartGeneration != FollowupReasoning
    ensures ChartAdjustment != SqlReasoning && ChartAdjustment != FollowupReasoning
    ensures SqlReasoning != FollowupReasoning
  {
    assert ChartGeneration[12] != ChartAdjustment[12];
  }

  /** The six pipeline placeholders, each bound to the default model. */
  const PipelineDefaultBindings: seq<Binding> := [
    (SqlAnswer, DefaultModel),
    (DataAssistance, DefaultModel),
    (ChartGeneration, DefaultModel),
    (ChartAdjustment, DefaultModel),
    (SqlReasoning, DefaultModel),
    (FollowupReasoning, DefaultModel)
  ]

  const NoOverrides: seq<Binding> := []

  const DeepseekOverrides: seq<Binding> := [
    (SqlAnswer, "litellm_llm.deepseek/deepseek-chat"),
    (DataAssistance, "litellm_llm.deepseek/deepseek-chat"),
    (SqlReasoning, "litellm_llm.deepseek/deepseek-reasoner"),
    (FollowupReasoning, "litellm_llm.deepseek/deepseek-reasoner")
  ]

  const GeminiChartOverrides: seq<Binding> := [
    (ChartGeneration, "litellm_llm.gemini-llm-for-chart"),
    (ChartAdjustment, "litellm_llm.gemini-llm-for-chart")
  ]

  const Qwen3Overrides: seq<Binding> := [
    (SqlAnswer, "litellm_llm.qwen3-fast"),
    (DataAssistance, "litellm_llm.qwen3-fast"),
    (SqlReasoning, "litellm_llm.qwen3-thinking"),
    (FollowupReasoning, "litellm_llm.qwen3-thinking")
  ]

  const ZhipuOverrides: seq<Binding> := [
    (SqlAnswer, "litellm_llm.glm45-fast"),
    (DataAssistance, "litellm_llm.glm45-fast"),
    (SqlReasoning, "litellm_llm.glm45-thinking"),
    (FollowupReasoning, "litellm_llm.glm45-thinking")
  ]

  const SettingsOpenai: TemplateSettings := TemplateSettings(false, "INFO", false)
  const SettingsDebugFalse: TemplateSettings := TemplateSettings(true, "DEBUG", false)
  const SettingsDebugTrue: TemplateSettings := TemplateSettings(true, "DEBUG", true)
  const SettingsOpenRouter: TemplateSettings := TemplateSettings(true, "DEBUG", false)

  /** The selectable templates, in menu order. */
  const ConfigTemplates: seq<ConfigTemplate> := [
    ConfigTemplate("openai", "OpenAI (GPT-4o mini)",
                   "Use OpenAI gpt-4o-mini with text-embedding-3-large", NoOverrides, SettingsOpenai),
    ConfigTemplate("anthropic", "Anthropic Claude 3.7 Sonnet",
                   "Anthropic Claude via api.anthropic.com", NoOverrides, SettingsDebugFalse),
    ConfigTemplate("azure", "Azure OpenAI",
                   "Azure OpenAI deployment using gpt-4", NoOverrides, SettingsDebugFalse),
    ConfigTemplate("bedrock", "AWS Bedrock",
                   "Amazon Bedrock Claude Sonnet + Titan embeddings", NoOverrides, SettingsDebugFalse),
    ConfigTemplate("deepseek", "DeepSeek",
                   "DeepSeek reasoning and chat models via api.deepseek.com", DeepseekOverrides, SettingsDebugTrue),
    ConfigTemplate("google_ai_studio", "Google Gemini (AI Studio)",
                   "Gemini 2.0 Flash via Google AI Studio", GeminiChartOverrides, SettingsDebugTrue),
    ConfigTemplate("google_vertexai", "Google Gemini (Vertex AI)",
                   "Gemini 2.5 Flash via Vertex AI", GeminiChartOverrides, SettingsDebugTrue),
    ConfigTemplate("grok", "xAI Grok",
                   "xAI Grok 3 via api.x.ai", NoOverrides, SettingsDebugTrue),
    ConfigTemplate("groq", "Groq Llama 3.3",
                   "Groq API with Llama 3.3 70B specdec", NoOverrides, SettingsDebugTrue),
    ConfigTemplate("lm_studio", "LM Studio",
                   "Local LM Studio endpoint (phi-4 + nomic embeddings)", NoOverrides, SettingsDebugTrue),
    ConfigTemplate("ollama", "Ollama",
                   "Local Ollama with phi4:14b", NoOverrides, SettingsDebugTrue),
    ConfigTemplate("open_router", "OpenRouter",
                   "OpenRouter Claude 3.7 Sonnet", NoOverrides, SettingsOpenRouter),
    ConfigTemplate("qwen3", "Qwen3",
                   "Qwen3 via OpenRouter with thinking and fast modes", Qwen3Overrides, SettingsDebugTrue),
    ConfigTemplate("zhipu", "Zhipu GLM-4.5",
                   "Zhipu AI GLM-4.5 with thinking/fast variants", ZhipuOverrides, SettingsDebugTrue)
  ]

  const TemplateCount: nat := 14

  lemma TemplateTableSize()
    ensures |ConfigTemplates| == TemplateCount
  {
  }

  /** The menu's keys, in order. */
  lemma TemplateKeysInOrder()
    ensures |ConfigTemplates| == TemplateCount
    ensures ConfigTemplates[0].key == "openai" && ConfigTemplates[1].key == "anthropic"
    ensures ConfigTemplates[2].key == "azure" && ConfigTemplates[3].key == "bedrock"
    ensures ConfigTemplates[4].key == "deepseek" && ConfigTemplates[5].key == "google_ai_studio"
    ensures ConfigTemplates[6].key == "google_vertexai" && ConfigTemplates[7].key == "grok"
    ensures ConfigTemplates[8].key == "groq" && ConfigTemplates[9].key == "lm_studio"
    ensures ConfigTemplates[10].key == "ollama" && ConfigTemplates[11].key == "open_router"
    ensures ConfigTemplates[12].key == "qwen3" && ConfigTemplates[13].key == "zhipu"
  {
  }

  /** 14 templates with pairwise-distinct keys, each of which has a display
      name of its own in the `.env` form (none falls back to "API"). */
  lemma TemplateTableWellFormed()
    ensures |ConfigTemplates| == TemplateCount
    ensures forall i, j :: 0 <= i < j < |ConfigTemplates| ==> ConfigTemplates[i].key != ConfigTemplates[j].key
    ensures forall i :: 0 <= i < |ConfigTemplates| ==> ConfigTemplates[i].key in Forms.NamedProviders
    ensures forall i :: 0 <= i < |ConfigTemplates| ==> Forms.ApiKeyName(ConfigTemplates[i].key) != "API"
  {
    TemplateKeysInOrder();
  }

  // ---------------------------------------------------------------------
  // Pipeline bindings
  // ---------------------------------------------------------------------

  predicate HasKey(bindings: seq<Binding>, key: string) {
    exists k :: 0 <= k < |bindings| && bindings[k].0 == key
  }

  /** `overrides.iter().find(|(key, _)| key == placeholder)`. */
  function FindOverride(overrides: seq<Binding>, placeholder: string): (r: Option<string>)
    ensures r.None? <==> !HasKey(overrides, placeholder)
    ensures r.Some? ==> exists k :: 0 <= k < |overrides| && overrides[k] == (placeholder, r.value)
                           && forall j :: 0 <= j < k ==> overrides[j].0 != placeholder
    decreases |overrides|
  {
    if overrides == [] then None
    else if overrides[0].0 == placeholder then Some(overrides[0].1)
    else
      var r := FindOverride(overrides[1..], placeholder);
      assert forall j :: 0 < j < |overrides| ==> overrides[j] == overrides[1..][j - 1];
      r
  }

  /** The value each default placeholder receives, in application order. */
  function Bindings(overrides: seq<Binding>, defaults: seq<Binding>): (r: seq<Binding>)
    ensures |r| == |defaults|
    ensures forall i :: 0 <= i < |defaults| ==> r[i].0 == defaults[i].0
    ensures forall i :: 0 <= i < |defaults| && !HasKey(overrides, defaults[i].0) ==> r[i].1 == defaults[i].1
    ensures forall i :: 0 <= i < |defaults| && HasKey(overrides, defaults[i].0) ==>
              exists k :: 0 <= k < |overrides| && overrides[k] == r[i]
                && forall j :: 0 <= j < k ==> overrides[j].0 != r[i].0
    decreases |defaults|
  {
    if defaults == [] then []
    else
      var value := match FindOverride(overrides, defaults[0].0)
        case Some(v) => v
        case None => defaults[0].1;
      [(defaults[0].0, value)] + Bindings(overrides, defaults[1..])
  }

  /** Apply the bindings to `text` one after another, each a whole-string
      replacement. */
  function ApplyBindings(text: string, bindings: seq<Binding>): string
    decreases |bindings|
  {
    if bindings == [] then text
    else ApplyBindings(Replace(text, bindings[0].0, bindings[0].1), bindings[1..])
  }

  function RenderPipeline(sections: Sections, overrides: seq<Binding>): string {
    ApplyBindings(sections.pipeline, Bindings(overrides, PipelineDefaultBindings))
  }

  /** Every key of `overrides` is one of the six default placeholders. */
  predicate KeysAreDefaults(overrides: seq<Binding>) {
    forall k :: 0 <= k < |overrides| ==> HasKey(PipelineDefaultBindings, overrides[k].0)
  }

  /** No key of the four override tables is ignored by `RenderPipeline`. */
  lemma OverrideKeysAreDefaults()
    ensures KeysAreDefaults(DeepseekOverrides) && KeysAreDefaults(GeminiChartOverrides)
    ensures KeysAreDefaults(Qwen3Overrides) && KeysAreDefaults(ZhipuOverrides)
  {
    var d := PipelineDefaultBindings;
    assert d[0].0 == SqlAnswer && d[1].0 == DataAssistance && d[2].0 == ChartGeneration;
    assert d[3].0 == ChartAdjustment && d[4].0 == SqlReasoning && d[5].0 == FollowupReasoning;
  }

  /** With no overrides every placeholder gets the default model. */
  lemma NoOverridesBindDefaults()
    ensures forall i :: 0 <= i < |PipelineDefaultBindings| ==>
              Bindings(NoOverrides, PipelineDefaultBindings)[i].1 == DefaultModel
  {
  }

  /** The DeepSeek table rebinds the answer and reasoning steps and keeps
      the default model for the two chart steps. */
  lemma DeepseekBindings()
    ensures Bindings(DeepseekOverrides, PipelineDefaultBindings)[0].1 == "litellm_llm.deepseek/deepseek-chat"
    ensures Bindings(DeepseekOverrides, PipelineDefaultBindings)[2].1 == DefaultModel
    ensures Bindings(DeepseekOverrides, PipelineDefaultBindings)[3].1 == DefaultModel
    ensures Bindings(DeepseekOverrides, PipelineDefaultBindings)[5].1 == "litellm_llm.deepseek/deepseek-reasoner"
  {
    PlaceholdersDistinct();
    var o := DeepseekOverrides;
    var d := PipelineDefaultBindings;
    assert o[0].0 == d[0].0 && o[3].0 == d[5].0;
    assert forall k :: 0 <= k < |o| ==> o[k].0 != d[2].0 && o[k].0 != d[3].0;
    assert forall k :: 0 < k < |o| ==> o[k].0 != d[0].0;
    assert forall k :: 0 <= k < 3 ==> o[k].0 != d[5].0;
  }

  // ---------------------------------------------------------------------
  // Settings and the whole file
  // ---------------------------------------------------------------------

  /** The YAML spelling of a boolean. */
  function BoolLiteral(value: bool): (r: string)
    ensures r == "true" || r == "false"
    ensures value <==> r == "true"
  {
    if value then "true" else "false"
  }

  const LangfusePlaceholder: string := "{{LANGFUSE_ENABLE}}"
  const LoggingPlaceholder: string := "{{LOGGING_LEVEL}}"
  const DevelopmentPlaceholder: string := "{{DEVELOPMENT}}"

  function RenderSettings(sections: Sections, settings: TemplateSettings): string {
    Replace(Replace(Replace(sections.settings, LangfusePlaceholder, BoolLiteral(settings.langfuseEnable)),
                    LoggingPlaceholder, settings.loggingLevel),
            DevelopmentPlaceholder, BoolLiteral(settings.development))
  }

  /** "true" and "false" contain no placeholder. */
  lemma BoolLiteralsPlain(value: bool)
    ensures !Contains(BoolLiteral(value), LoggingPlaceholder)
    ensures !Contains(BoolLiteral(value), DevelopmentPlaceholder)
  {
    NotContainedWhenShort(BoolLiteral(value), LoggingPlaceholder);
    NotContainedWhenShort(BoolLiteral(value), DevelopmentPlaceholder);
  }

  const EnginePlaceholder: string := "{{ENGINE_SECTION}}"
  const PipelinePlaceholder: string := "{{PIPELINE_SECTION}}"
  const SettingsPlaceholder: string := "{{SETTINGS_SECTION}}"

  /** The provider file with the three sections spliced in, engine first,
      then pipeline, then settings. */
  function Render(template: ConfigTemplate, providerText: string, sections: Sections): string {
    var content := Replace(providerText, EnginePlaceholder, sections.engine);
    var content := Replace(content, PipelinePlaceholder, RenderPipeline(sections, template.pipelineOverrides));
    Replace(content, SettingsPlaceholder, RenderSettings(sections, template.settings))
  }

  /** A provider file without section placeholders is emitted unchanged. */
  lemma RenderWithoutPlaceholders(template: ConfigTemplate, providerText: string, sections: Sections)
    requires !Contains(providerText, EnginePlaceholder)
    requires !Contains(providerText, PipelinePlaceholder)
    requires !Contains(providerText, SettingsPlaceholder)
    ensures Render(template, providerText, sections) == providerText
  {
    ReplaceAbsent(providerText, EnginePlaceholder, sections.engine);
    ReplaceAbsent(providerText, PipelinePlaceholder, RenderPipeline(sections, template.pipelineOverrides));
    ReplaceAbsent(providerText, SettingsPlaceholder, RenderSettings(sections, template.settings));
  }

  /** The engine section is spliced in first, so a settings placeholder
      inside the engine text is itself expanded later; the order of the
      three replacements is observable. */
  lemma EngineSectionExpandedBeforeSettings(template: ConfigTemplate, sections: Sections)
    requires sections.engine == SettingsPlaceholder
    ensures Render(template, EnginePlaceholder, sections) == RenderSettings(sections, template.settings)
  {
    ReplaceWhole(EnginePlaceholder, SettingsPlaceholder);
    ReplaceInShorter(SettingsPlaceholder, PipelinePlaceholder, RenderPipeline(sections, template.pipelineOverrides));
    ReplaceWhole(SettingsPlaceholder, RenderSettings(sections, template.settings));
  }

  // ---------------------------------------------------------------------
  // Rendering a general template text
  // ---------------------------------------------------------------------

  /** A template text read as literal runs and `{{NAME}}` placeholders. */
  datatype Piece = Literal(text: string) | Hole(name: string)

  /** Text without an opening brace, so no placeholder can start in it. */
  predicate Plain(s: string) {
    forall i :: 0 <= i < |s| ==> s[i] != '{'
  }

  /** `{{NAME}}` with a name free of braces. */
  predicate Braced(p: string) {
    && |p| >= 4 && p[0] == '{' && p[1] == '{' && p[|p| - 2] == '}' && p[|p| - 1] == '}'
    && forall i :: 2 <= i < |p| - 2 ==> p[i] != '{' && p[i] != '}'
  }

  predicate WellPieced(pieces: seq<Piece>) {
    forall k :: 0 <= k < |pieces| ==>
      match pieces[k]
        case Literal(t) => Plain(t)
        case Hole(n) => Braced(n)
  }

  /** Every placeholder of the text has a binding. */
  predicate HolesBound(pieces: seq<Piece>, bindings: seq<Binding>) {
    forall k :: 0 <= k < |pieces| && pieces[k].Hole? ==> HasKey(bindings, pieces[k].name)
  }

  function PieceText(piece: Piece): string {
    match piece
      case Literal(t) => t
      case Hole(n) => n
  }

  /** The text the pieces spell. */
  function Spell(pieces: seq<Piece>): string
    decreases |pieces|
  {
    if pieces == [] then [] else PieceText(pieces[0]) + Spell(pieces[1..])
  }

  /** What a template means: every placeholder replaced by the value of its
      first binding, and a placeholder without a binding left as it is. */
  function Expand(pieces: seq<Piece>, bindings: seq<Binding>): string
    decreases |pieces|
  {
    if pieces == [] then []
    else
      var head := match pieces[0]
        case Literal(t) => t
        case Hole(n) => match FindOverride(bindings, n)
          case Some(v) => v
          case None => n;
      head + Expand(pieces[1..], bindings)
  }

  /** The pieces after one placeholder has been filled in. */
  function FillHole(pieces: seq<Piece>, p: string, r: string): (f: seq<Piece>)
    ensures |f| == |pieces|
    ensures forall k :: 0 <= k < |pieces| ==>
              f[k] == if pieces[k] == Hole(p) then Literal(r) else pieces[k]
  {
    seq(|pieces|, k requires 0 <= k < |pieces| => if pieces[k] == Hole(p) then Literal(r) else pieces[k])
  }

  /** A different placeholder does not start where `q` starts: the first
      closing brace of the shorter one falls inside the other's name. */
  lemma BracedMismatch(q: string, t: string, p: string)
    requires Braced(q) && Braced(p) && q != p && |q + t| >= |p|
    ensures (q + t)[..|p|] != p
  {
    var s := q + t;
    if |p| == |q| {
      assert s[..|p|] == q;
    } else if |p| < |q| {
      assert s[|p| - 2] == q[|p| - 2];
    } else {
      assert s[|q| - 2] == q[|q| - 2];
    }
  }

  /** After its two opening braces a placeholder has no opening brace. */
  lemma BracedTail(q: string)
    requires Braced(q)
    ensures Plain(q[2..])
  {
    forall i | 0 <= i < |q[2..]| ensures q[2..][i] != '{' {
      assert q[2..][i] == q[i + 2];
    }
  }

  /** No placeholder `p` starts at the second character of a text whose
      remainder has no opening brace. */
  lemma ReplaceBracedTail(c: char, v: string, t: string, p: string, r: string)
    requires Plain(v) && |v| > 0 && |p| >= 2 && p[0] == '{' && p[1] == '{'
    ensures Replace([c] + v + t, p, r) == [c] + v + Replace(t, p, r)
  {
    var u := v + t;
    ReplacePlainHead(v, t, p, r);
    assert [c] + v + t == [c] + u;
    if |u| + 1 < |p| {
      ReplaceShort([c] + u, p, r);
      ReplaceShort(t, p, r);
    } else {
      assert ([c] + u)[..|p|][1] == v[0];
      ReplaceCons(c, u, p, r);
    }
  }

  /** Two different placeholders: the scan for `p` passes over `q`. */
  lemma ReplaceBracedHead(q: string, t: string, p: string, r: string)
    requires Braced(q) && Braced(p) && q != p
    ensures Replace(q + t, p, r) == q + Replace(t, p, r)
  {
    BracedFirst(q, t, p, r);
    BracedRest(q, t, p, r);
    HeadThenRest(Replace(q + t, p, r), Replace(q[1..] + t, p, r), q, Replace(t, p, r));
  }

  lemma HeadThenRest(whole: string, tail: string, q: string, rest: string)
    requires |q| > 0 && whole == [q[0]] + tail && tail == q[1..] + rest
    ensures whole == q + rest
  {
    assert q == [q[0]] + q[1..];
  }

  /** The scan for `p` copies the first brace of `q`. */
  lemma BracedFirst(q: string, t: string, p: string, r: string)
    requires Braced(q) && Braced(p) && q != p
    ensures Replace(q + t, p, r) == [q[0]] + Replace(q[1..] + t, p, r)
  {
    var u := q[1..] + t;
    assert q + t == [q[0]] + u by {
      assert q == [q[0]] + q[1..];
    }
    if |q + t| < |p| {
      ReplaceShort(q + t, p, r);
      ReplaceShort(u, p, r);
    } else {
      BracedMismatch(q, t, p);
      ReplaceCons(q[0], u, p, r);
    }
  }

  /** After its first brace, `q` holds no occurrence of `p`'s start. */
  lemma BracedRest(q: string, t: string, p: string, r: string)
    requires Braced(q) && Braced(p)
    ensures Replace(q[1..] + t, p, r) == q[1..] + Replace(t, p, r)
  {
    BracedTail(q);
    assert q[1..] == [q[1]] + q[2..];
    ReplaceBracedTail(q[1], q[2..], t, p, r);
  }

  /** Replacing one placeholder in a spelled text fills that hole. */
  lemma {:induction false} ReplaceSpell(pieces: seq<Piece>, p: string, r: string)
    requires WellPieced(pieces) && Braced(p) && Plain(r)
    ensures Replace(Spell(pieces), p, r) == Spell(FillHole(pieces, p, r))
    ensures WellPieced(FillHole(pieces, p, r))
    decreases |pieces|
  {
    var f := FillHole(pieces, p, r);
    if pieces != [] {
      var rest := pieces[1..];
      assert WellPieced(rest) by {
        assert forall k :: 0 <= k < |rest| ==> rest[k] == pieces[k + 1];
      }
      ReplaceSpell(rest, p, r);
      assert f[1..] == FillHole(rest, p, r);
      var tail := Spell(rest);
      match pieces[0]
        case Literal(t) =>
          ReplacePlainHead(t, tail, p, r);
        case Hole(n) =>
          if n == p {
            ReplaceLeading(p, tail, r);
          } else {
            ReplaceBracedHead(n, tail, p, r);
          }
    }
  }

  /** Filling the first binding's hole and expanding with the rest is
      expanding with all of them. */
  lemma {:induction false} ExpandFill(pieces: seq<Piece>, b: Binding, rest: seq<Binding>)
    ensures Expand(FillHole(pieces, b.0, b.1), rest) == Expand(pieces, [b] + rest)
    decreases |pieces|
  {
    if pieces != [] {
      assert FillHole(pieces, b.0, b.1)[1..] == FillHole(pieces[1..], b.0, b.1);
      ExpandFill(pieces[1..], b, rest);
      assert ([b] + rest)[1..] == rest;
    }
  }

  /** With no bindings a template expands to its own text. */
  lemma {:induction false} ExpandUnbound(pieces: seq<Piece>)
    ensures Expand(pieces, []) == Spell(pieces)
    decreases |pieces|
  {
    if pieces != [] {
      ExpandUnbound(pieces[1..]);
    }
  }

  /** Applying bindings to a spelled template is its expansion, when every
      key is a placeholder and no value opens a brace. */
  lemma {:induction false} ApplyBindingsExpands(pieces: seq<Piece>, bindings: seq<Binding>)
    requires WellPieced(pieces)
    requires forall k :: 0 <= k < |bindings| ==> Braced(bindings[k].0) && Plain(bindings[k].1)
    ensures ApplyBindings(Spell(pieces), bindings) == Expand(pieces, bindings)
    decreases |bindings|
  {
    if bindings == [] {
      ExpandUnbound(pieces);
    } else {
      var b := bindings[0];
      ReplaceSpell(pieces, b.0, b.1);
      ApplyBindingsExpands(FillHole(pieces, b.0, b.1), bindings[1..]);
      ExpandFill(pieces, b, bindings[1..]);
      assert bindings == [b] + bindings[1..];
    }
  }

  /** An expansion whose placeholders are all bound contains no brace. */
  lemma {:induction false} ExpandPlain(pieces: seq<Piece>, bindings: seq<Binding>)
    requires WellPieced(pieces) && HolesBound(pieces, bindings)
    requires forall k :: 0 <= k < |bindings| ==> Plain(bindings[k].1)
    ensures Plain(Expand(pieces, bindings))
    decreases |pieces|
  {
    if pieces != [] {
      var rest := pieces[1..];
      assert forall k :: 0 <= k < |rest| ==> rest[k] == pieces[k + 1];
      ExpandPlain(rest, bindings);
      if pieces[0].Hole? {
        var k :| 0 <= k < |bindings| && bindings[k] == (pieces[0].name, FindOverride(bindings, pieces[0].name).value);
      }
    }
  }

  /** Applying one more binding at the end is one more replacement. */
  lemma {:induction false} ApplySnoc(text: string, bindings: seq<Binding>, b: Binding)
    ensures ApplyBindings(text, bindings + [b]) == Replace(ApplyBindings(text, bindings), b.0, b.1)
    decreases |bindings|
  {
    if bindings == [] {
      assert [b][1..] == [];
    } else {
      assert (bindings + [b])[1..] == bindings[1..] + [b];
      ApplySnoc(Replace(text, bindings[0].0, bindings[0].1), bindings[1..], b);
    }
  }

  /** Applying three bindings is three replacements in that order. */
  lemma ApplyThree(text: string, b0: Binding, b1: Binding, b2: Binding)
    ensures ApplyBindings(text, [b0, b1, b2]) == Replace(Replace(Replace(text, b0.0, b0.1), b1.0, b1.1), b2.0, b2.1)
  {
    var t1 := Replace(text, b0.0, b0.1);
    var t2 := Replace(t1, b1.0, b1.1);
    assert [b0, b1, b2][1..] == [b1, b2];
    assert [b1, b2][1..] == [b2];
    assert [b2][1..] == [];
    assert ApplyBindings(t2, [b2]) == Replace(t2, b2.0, b2.1);
    assert ApplyBindings(t1, [b1, b2]) == ApplyBindings(t2, [b2]);
  }

  /** The placeholders all have the `{{NAME}}` shape. */
  lemma AnswerPlaceholdersBraced()
    ensures Braced(SqlAnswer) && Braced(DataAssistance) && Braced(SqlReasoning)
  {
  }

  lemma ChartPlaceholdersBraced()
    ensures Braced(ChartGeneration) && Braced(ChartAdjustment)
  {
  }

  lemma FollowupPlaceholderBraced()
    ensures Braced(FollowupReasoning)
  {
  }

  lemma SettingsPlaceholdersBraced()
    ensures Braced(LangfusePlaceholder) && Braced(LoggingPlaceholder) && Braced(DevelopmentPlaceholder)
  {
  }

  lemma SectionPlaceholdersBraced()
    ensures Braced(EnginePlaceholder) && Braced(PipelinePlaceholder) && Braced(SettingsPlaceholder)
  {
  }

  /** Every pipeline default binds a placeholder to a brace-free model. */
  lemma PipelineDefaultsShaped()
    ensures forall k :: 0 <= k < |PipelineDefaultBindings| ==>
              Braced(PipelineDefaultBindings[k].0) && Plain(PipelineDefaultBindings[k].1)
  {
    AnswerPlaceholdersBraced();
    ChartPlaceholdersBraced();
    FollowupPlaceholderBraced();
    assert Plain(DefaultModel);
  }

  /** The settings placeholders and their values, in replacement order. */
  function SettingsBindings(settings: TemplateSettings): seq<Binding> {
    [(LangfusePlaceholder, BoolLiteral(settings.langfuseEnable)),
     (LoggingPlaceholder, settings.loggingLevel),
     (DevelopmentPlaceholder, BoolLiteral(settings.development))]
  }

  /** The pipeline section is its template with each placeholder replaced
      by the template's model for it: the first override, else the
      default. */
  lemma RenderPipelineExpands(sections: Sections, overrides: seq<Binding>, pieces: seq<Piece>)
    requires sections.pipeline == Spell(pieces) && WellPieced(pieces)
    requires forall k :: 0 <= k < |overrides| ==> Plain(overrides[k].1)
    ensures RenderPipeline(sections, overrides) == Expand(pieces, Bindings(overrides, PipelineDefaultBindings))
  {
    var b := Bindings(overrides, PipelineDefaultBindings);
    PipelineDefaultsShaped();
    forall k | 0 <= k < |b| ensures Braced(b[k].0) && Plain(b[k].1) {
      assert b[k].0 == PipelineDefaultBindings[k].0;
    }
    ApplyBindingsExpands(pieces, b);
  }

  /** The settings section is its template with each settings placeholder
      replaced by its own value: the flags as YAML booleans, the logging
      level verbatim. */
  lemma RenderSettingsFillsPlaceholders(sections: Sections, settings: TemplateSettings, pieces: seq<Piece>)
    requires sections.settings == Spell(pieces) && WellPieced(pieces)
    requires Plain(settings.loggingLevel)
    ensures RenderSettings(sections, settings) == Expand(pieces, SettingsBindings(settings))
  {
    var b := SettingsBindings(settings);
    SettingsPlaceholdersBraced();
    assert Plain(BoolLiteral(settings.langfuseEnable)) && Plain(BoolLiteral(settings.development));
    ApplyThree(sections.settings, b[0], b[1], b[2]);
    ApplyBindingsExpands(pieces, b);
  }

  /** The three section placeholders and the texts spliced in for them. */
  function SectionBindings(template: ConfigTemplate, sections: Sections): seq<Binding> {
    [(EnginePlaceholder, sections.engine),
     (PipelinePlaceholder, RenderPipeline(sections, template.pipelineOverrides)),
     (SettingsPlaceholder, RenderSettings(sections, template.settings))]
  }

  /** The rendered file is the provider text with each section placeholder
      replaced by its section, when the sections' own placeholders are all
      filled: the pipeline's by the template's models and the settings' by
      the template's settings. */
  lemma RenderExpands(template: ConfigTemplate, providerText: string, sections: Sections,
                      provider: seq<Piece>, pipeline: seq<Piece>, settings: seq<Piece>)
    requires providerText == Spell(provider) && WellPieced(provider)
    requires Plain(sections.engine)
    requires sections.pipeline == Spell(pipeline) && WellPieced(pipeline)
    requires HolesBound(pipeline, PipelineDefaultBindings)
    requires forall k :: 0 <= k < |template.pipelineOverrides| ==> Plain(template.pipelineOverrides[k].1)
    requires sections.settings == Spell(settings) && WellPieced(settings)
    requires HolesBound(settings, SettingsBindings(template.settings))
    requires Plain(template.settings.loggingLevel)
    ensures Render(template, providerText, sections) ==
              Expand(provider, [(EnginePlaceholder, sections.engine),
                                (PipelinePlaceholder, Expand(pipeline, Bindings(template.pipelineOverrides, PipelineDefaultBindings))),
                                (SettingsPlaceholder, Expand(settings, SettingsBindings(template.settings)))])
  {
    var pipelineText := Expand(pipeline, Bindings(template.pipelineOverrides, PipelineDefaultBindings));
    var settingsText := Expand(settings, SettingsBindings(template.settings));
    var all := SectionBindings(template, sections);
    assert all == [(EnginePlaceholder, sections.engine), (PipelinePlaceholder, pipelineText),
                   (SettingsPlaceholder, settingsText)] by {
      RenderPipelineExpands(sections, template.pipelineOverrides, pipeline);
      RenderSettingsFillsPlaceholders(sections, template.settings, settings);
    }
    assert forall k :: 0 <= k < |all| ==> Braced(all[k].0) && Plain(all[k].1) by {
      PipelineExpansionPlain(template.pipelineOverrides, pipeline);
      SettingsExpansionPlain(template.settings, settings);
      SectionPlaceholdersBraced();
    }
    RenderIsApply(template, providerText, sections);
    ApplyBindingsExpands(provider, all);
  }

  /** `render` applies the three section bindings in order. */
  lemma RenderIsApply(template: ConfigTemplate, providerText: string, sections: Sections)
    ensures Render(template, providerText, sections) == ApplyBindings(providerText, SectionBindings(template, sections))
  {
    var all := SectionBindings(template, sections);
    ApplyThree(providerText, all[0], all[1], all[2]);
  }

  /** A pipeline section whose placeholders are all pipeline steps renders
      without braces. */
  lemma PipelineExpansionPlain(overrides: seq<Binding>, pipeline: seq<Piece>)
    requires WellPieced(pipeline) && HolesBound(pipeline, PipelineDefaultBindings)
    requires forall k :: 0 <= k < |overrides| ==> Plain(overrides[k].1)
    ensures Plain(Expand(pipeline, Bindings(overrides, PipelineDefaultBindings)))
  {
    var b := Bindings(overrides, PipelineDefaultBindings);
    assert HolesBound(pipeline, b) by {
      forall k | 0 <= k < |pipeline| && pipeline[k].Hole? ensures HasKey(b, pipeline[k].name) {
        var j :| 0 <= j < |PipelineDefaultBindings| && PipelineDefaultBindings[j].0 == pipeline[k].name;
        assert b[j].0 == pipeline[k].name;
      }
    }
    PipelineDefaultsShaped();
    ExpandPlain(pipeline, b);
  }

  /** A settings section whose placeholders are all settings renders
      without braces when the logging level has none. */
  lemma SettingsExpansionPlain(settings: TemplateSettings, pieces: seq<Piece>)
    requires WellPieced(pieces) && HolesBound(pieces, SettingsBindings(settings))
    requires Plain(settings.loggingLevel)
    ensures Plain(Expand(pieces, SettingsBindings(settings)))
  {
    var sb := SettingsBindings(settings);
    assert Plain(sb[0].1) && Plain(sb[2].1);
    ExpandPlain(pieces, sb);
  }
}
