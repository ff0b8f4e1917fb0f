/** Producing `.env` from the bundled template and the form: fixed defaults
    first, then the provider key. For providers whose variable is neither
    empty nor `OPENAI_API_KEY` the template is rewritten line by line. The
    template text and the UUID fragment are parameters. */
module EnvFile {
  import opened Util
  import Forms
  import Templates

  const OpenaiKeyName: string := "OPENAI_API_KEY"
  const OpenaiPrefix: string := "OPENAI_API_KEY="
  const OpenaiPlaceholder: string := "{{OPENAI_API_KEY}}"
  const VendorKeysComment: string := "# vendor keys"

  /** The fixed substitutions made before any key handling. */
  function FillDefaults(template: string, uuidFragment: string): string {
    var content := Replace(template, "{{ANALYTICS_AI_SERVICE_PORT}}", "5555");
    var content := Replace(content, "{{USER_UUID}}", "demo-user-" + uuidFragment);
    var content := Replace(content, "{{GENERATION_MODEL}}", "default");
    var content := Replace(content, "{{HOST_PORT}}", "3000");
    Replace(content, "{{AI_SERVICE_FORWARD_PORT}}", "5555")
  }

  function KeyLine(name: string, value: string): string {
    name + "=" + value
  }

  /** Which key lines the rewrite has written so far. */
  datatype Written = Written(provider: bool, openai: bool)

  /** The lines the rewrite produced and which key lines are among them. */
  datatype Rewrite = Rewrite(lines: seq<string>, written: Written)

  /** The parts of the form the rewrite uses: the provider's variable, the
      trimmed keys, and whether an OpenAI key line is wanted. */
  datatype Keys = Keys(envKey: string, apiKey: string, openaiKey: string, needsOpenai: bool)

  function ProviderLine(k: Keys): string {
    KeyLine(k.envKey, k.apiKey)
  }

  function OpenaiLine(k: Keys): string {
    KeyLine(OpenaiKeyName, k.openaiKey)
  }

  /** How the rewrite treats a template line, judged on the trimmed line in
      the order the code tests: a bare `OPENAI_API_KEY` line, the provider's
      own entry, another `OPENAI_API_KEY=` entry, the vendor-keys comment,
      anything else. */
  datatype Entry = Bare | ProviderEntry | OpenaiEntry | VendorKeys | Plain

  function EntryOf(line: string, k: Keys): Entry {
    var trimmed := Trim(line);
    if trimmed == OpenaiPrefix + OpenaiPlaceholder || trimmed == OpenaiPrefix then Bare
    else if StartsWith(trimmed, k.envKey + "=") then ProviderEntry
    else if StartsWith(trimmed, OpenaiPrefix) then OpenaiEntry
    else if Contains(line, VendorKeysComment) then VendorKeys
    else Plain
  }

  /** The lines one template line contributes. Bare lines are dropped;
      an existing provider entry becomes the provider line; an OpenAI entry
      becomes the OpenAI line when one is wanted and is dropped otherwise;
      every other line is kept, and the key lines not yet written follow
      the vendor-keys comment. */
  function Added(w: Written, e: Entry, line: string, k: Keys): seq<string> {
    match e
      case Bare => []
      case ProviderEntry => [ProviderLine(k)]
      case OpenaiEntry => if k.needsOpenai then [OpenaiLine(k)] else []
      case VendorKeys =>
        [line] + (if !w.provider then [ProviderLine(k)] else [])
               + (if k.needsOpenai && !w.openai then [OpenaiLine(k)] else [])
      case Plain => [line]
  }

  /** The flags after one template line: the provider line is written by a
      provider entry or after the vendor-keys comment, the OpenAI line (when
      wanted) by an OpenAI entry or after the comment. */
  function Next(w: Written, e: Entry, k: Keys): Written {
    Written(w.provider || e == ProviderEntry || e == VendorKeys,
            w.openai || (k.needsOpenai && (e == OpenaiEntry || e == VendorKeys)))
  }

  /** The loop over the template's lines, starting from flags `w`. */
  function RewriteAll(w: Written, lines: seq<string>, k: Keys): Rewrite
    decreases |lines|
  {
    if lines == [] then Rewrite([], w)
    else
      var e := EntryOf(lines[0], k);
      var rest := RewriteAll(Next(w, e, k), lines[1..], k);
      Rewrite(Added(w, e, lines[0], k) + rest.lines, rest.written)
  }

  /** The key lines still missing after the loop, appended at the end. */
  function Missing(w: Written, k: Keys): seq<string> {
    (if !w.provider then [ProviderLine(k)] else [])
    + (if k.needsOpenai && !w.openai then [OpenaiLine(k)] else [])
  }

  /** The rewritten lines: the template's lines folded, then any key line
      still missing. */
  function RewriteLines(lines: seq<string>, k: Keys): seq<string> {
    var r := RewriteAll(Written(false, false), lines, k);
    r.lines + Missing(r.written, k)
  }

  /** The `.env` text written for the form. */
  function GenerateEnvContent(template: string, form: Forms.FormData, uuidFragment: string): string {
    var content := FillDefaults(template, uuidFragment);
    var envKey := Forms.EnvKeyName(form.selectedProvider);
    var apiKey := Trim(form.apiKey);
    if envKey == "" then Replace(content, OpenaiPlaceholder, "")
    else if envKey == OpenaiKeyName then Replace(content, OpenaiPlaceholder, apiKey)
    else Join(EnvLines(content, form), "\n")
  }

  /** The keys the line rewrite writes for the form. */
  function FormKeys(form: Forms.FormData): Keys {
    var openaiKey := Trim(form.openaiApiKey);
    Keys(Forms.EnvKeyName(form.selectedProvider), Trim(form.apiKey), openaiKey,
         Forms.NeedsOpenaiEmbedding(form.selectedProvider) && openaiKey != [])
  }

  /** The lines of `.env` for providers that go through the line rewrite. */
  function EnvLines(content: string, form: Forms.FormData): seq<string> {
    RewriteLines(Lines(content), FormKeys(form))
  }

  // ---------------------------------------------------------------------
  // What the rewrite guarantees
  // ---------------------------------------------------------------------

  /** A variable name the rewrite can tell apart from `OPENAI_API_KEY=`
      lines: it does not start with whitespace, and within its first
      fifteen characters it differs from `OPENAI_API_KEY=`. */
  predicate ValidKeyName(envKey: string) {
    && envKey != []
    && !IsWhitespace(envKey[0])
    && exists i :: 0 <= i < |envKey| && i < |OpenaiPrefix| && envKey[i] != OpenaiPrefix[i]
  }

  /** Every variable the form can pick for the rewrite is such a name. */
  lemma EnvKeyNamesValid(provider: string)
    requires Forms.EnvKeyName(provider) != "" && Forms.EnvKeyName(provider) != OpenaiKeyName
    ensures ValidKeyName(Forms.EnvKeyName(provider))
  {
    var key := Forms.EnvKeyName(provider);
    if key == "OPENROUTER_API_KEY" {
      assert key[4] != OpenaiPrefix[4];
    } else {
      assert key[0] != OpenaiPrefix[0];
    }
  }

  /** A template line the rewrite keeps as it is. */
  predicate Kept(line: string, k: Keys) {
    !StartsWith(Trim(line), k.envKey + "=") && !StartsWith(Trim(line), OpenaiPrefix)
  }

  /** A line the rewrite itself writes. */
  predicate Inserted(line: string, k: Keys) {
    line == ProviderLine(k) || line == OpenaiLine(k)
  }

  ghost function NotInserted(k: Keys): iset<string> {
    iset line | !Inserted(line, k)
  }

  ghost function KeptSet(k: Keys): iset<string> {
    iset line | Kept(line, k)
  }

  /** The lines the rewrite did not write, in order. */
  ghost function Others(s: seq<string>, k: Keys): seq<string> {
    Keep(s, NotInserted(k))
  }

  /** The template lines the rewrite keeps, in order. */
  ghost function KeptLines(s: seq<string>, k: Keys): seq<string> {
    Keep(s, KeptSet(k))
  }

  /** The provider line never looks like an OpenAI line. */
  lemma ProviderLineNotOpenai(k: Keys)
    requires ValidKeyName(k.envKey)
    ensures !StartsWith(ProviderLine(k), OpenaiPrefix)
  {
    var s := ProviderLine(k);
    var i :| 0 <= i < |k.envKey| && i < |OpenaiPrefix| && k.envKey[i] != OpenaiPrefix[i];
    assert s[i] == k.envKey[i];
    if |s| >= |OpenaiPrefix| {
      assert s[..|OpenaiPrefix|][i] != OpenaiPrefix[i];
    }
  }

  /** A bare or existing OpenAI entry is not kept, and neither is an
      existing provider entry; every other line is. */
  lemma EntryKept(line: string, k: Keys)
    ensures Kept(line, k) <==> EntryOf(line, k) == VendorKeys || EntryOf(line, k) == Plain
  {
    assert StartsWith(OpenaiPrefix + OpenaiPlaceholder, OpenaiPrefix);
    assert StartsWith(OpenaiPrefix, OpenaiPrefix);
  }

  /** Kept lines are never mistaken for lines the rewrite writes. */
  lemma KeptNotInserted(line: string, k: Keys)
    requires ValidKeyName(k.envKey) && Kept(line, k)
    ensures !Inserted(line, k)
    ensures !StartsWith(line, OpenaiPrefix)
  {
    var p := k.envKey + "=";
    assert !StartsWith(line, p) by {
      if StartsWith(line, p) {
        TrimKeepsPrefix(line, p);
      }
    }
    assert !StartsWith(line, OpenaiPrefix) by {
      if StartsWith(line, OpenaiPrefix) {
        TrimKeepsPrefix(line, OpenaiPrefix);
      }
    }
    assert StartsWith(ProviderLine(k), p);
    assert StartsWith(OpenaiLine(k), OpenaiPrefix);
  }

  /** What one template line contributes: itself first when its entry is
      the vendor-keys comment or a plain line, then only key lines; for
      every other entry only key lines. */
  lemma AddedKept(w: Written, e: Entry, line: string, k: Keys)
    ensures var a := Added(w, e, line, k);
            && (e == VendorKeys || e == Plain ==> |a| > 0 && a[0] == line && forall i :: 1 <= i < |a| ==> Inserted(a[i], k))
            && (e != VendorKeys && e != Plain ==> forall i :: 0 <= i < |a| ==> Inserted(a[i], k))
  {
  }

  /** The key lines whose flags the step sets are among the line's
      contribution, and no OpenAI flag is set unless one is wanted. */
  lemma AddedFlags(w: Written, e: Entry, line: string, k: Keys)
    ensures var a := Added(w, e, line, k);
            && (!w.provider && Next(w, e, k).provider ==> ProviderLine(k) in a)
            && (!w.openai && Next(w, e, k).openai ==> OpenaiLine(k) in a)
            && (!k.needsOpenai ==> Next(w, e, k).openai == w.openai)
  {
  }

  /** The lines a template line contributes that the rewrite did not write
      are the line itself when kept, and nothing otherwise. */
  lemma AddedOthers(w: Written, line: string, k: Keys)
    requires ValidKeyName(k.envKey)
    ensures Others(Added(w, EntryOf(line, k), line, k), k) == KeptLines([line], k)
  {
    var e := EntryOf(line, k);
    var a := Added(w, e, line, k);
    EntryKept(line, k);
    AddedKept(w, e, line, k);
    KeepSingle(line, KeptSet(k));
    if Kept(line, k) {
      KeptNotInserted(line, k);
      assert a == [line] + a[1..];
      KeepSingle(line, NotInserted(k));
      KeepConcat([line], a[1..], NotInserted(k));
      KeepNone(a[1..], NotInserted(k));
    } else {
      KeepNone(a, NotInserted(k));
    }
  }

  /** A template line adds no `OPENAI_API_KEY=` line when none is wanted. */
  lemma AddedNoOpenai(w: Written, line: string, k: Keys)
    requires ValidKeyName(k.envKey) && !k.needsOpenai
    ensures NoOpenaiLine(Added(w, EntryOf(line, k), line, k))
  {
    var e := EntryOf(line, k);
    var a := Added(w, e, line, k);
    ProviderLineNotOpenai(k);
    if e == VendorKeys || e == Plain {
      EntryKept(line, k);
      KeptNotInserted(line, k);
      assert forall i :: 0 <= i < |a| ==> a[i] == line || a[i] == ProviderLine(k);
    } else {
      assert forall i :: 0 <= i < |a| ==> a[i] == ProviderLine(k);
    }
  }

  /** The loop keeps every line it did not write, in order. */
  lemma {:induction false} RewriteAllOthers(w: Written, lines: seq<string>, k: Keys)
    requires ValidKeyName(k.envKey)
    ensures Others(RewriteAll(w, lines, k).lines, k) == KeptLines(lines, k)
    decreases |lines|
  {
    if lines == [] {
      assert KeptLines(lines, k) == [];
    } else {
      var e := EntryOf(lines[0], k);
      var rest := RewriteAll(Next(w, e, k), lines[1..], k);
      RewriteAllOthers(Next(w, e, k), lines[1..], k);
      AddedOthers(w, lines[0], k);
      KeepStep(Added(w, e, lines[0], k), rest.lines, [lines[0]], lines[1..], NotInserted(k), KeptSet(k));
      assert lines == [lines[0]] + lines[1..];
    }
  }

  /** No line starts like an OpenAI key line. */
  predicate NoOpenaiLine(s: seq<string>) {
    forall i :: 0 <= i < |s| ==> !StartsWith(s[i], OpenaiPrefix)
  }

  lemma NoOpenaiConcat(a: seq<string>, b: seq<string>)
    requires NoOpenaiLine(a) && NoOpenaiLine(b)
    ensures NoOpenaiLine(a + b)
  {
    forall i | 0 <= i < |a + b|
      ensures !StartsWith((a + b)[i], OpenaiPrefix)
    {
      if i >= |a| {
        assert (a + b)[i] == b[i - |a|];
      } else {
        assert (a + b)[i] == a[i];
      }
    }
  }

  /** A key line the loop reports as written is among its lines, unless it
      was written before the loop began; without a wanted OpenAI key the
      loop writes no `OPENAI_API_KEY=` line and sets no OpenAI flag. */
  lemma {:induction false} RewriteAllWritten(w: Written, lines: seq<string>, k: Keys)
    requires ValidKeyName(k.envKey)
    ensures var r := RewriteAll(w, lines, k);
            && (r.written.provider ==> w.provider || ProviderLine(k) in r.lines)
            && (r.written.openai ==> w.openai || OpenaiLine(k) in r.lines)
            && (!k.needsOpenai ==> r.written.openai == w.openai && NoOpenaiLine(r.lines))
    decreases |lines|
  {
    if lines != [] {
      var e := EntryOf(lines[0], k);
      var a := Added(w, e, lines[0], k);
      var rest := RewriteAll(Next(w, e, k), lines[1..], k);
      RewriteAllWritten(Next(w, e, k), lines[1..], k);
      AddedFlags(w, e, lines[0], k);
      if !k.needsOpenai {
        AddedNoOpenai(w, lines[0], k);
        NoOpenaiConcat(a, rest.lines);
      }
    }
  }

  /** The lines the rewrite did not write are the kept template lines. */
  lemma RewriteLinesOthers(lines: seq<string>, k: Keys)
    requires ValidKeyName(k.envKey)
    ensures Others(RewriteLines(lines, k), k) == KeptLines(lines, k)
  {
    var st := RewriteAll(Written(false, false), lines, k);
    var tail := Missing(st.written, k);
    RewriteAllOthers(Written(false, false), lines, k);
    assert forall i :: 0 <= i < |tail| ==> Inserted(tail[i], k);
    KeepNone(tail, NotInserted(k));
    assert Keep([], KeptSet(k)) == [];
    KeepStep(st.lines, tail, lines, [], NotInserted(k), KeptSet(k));
    assert lines + [] == lines;
  }

  /** The key lines appended at the end are the ones the loop left out. */
  lemma MissingKeys(w: Written, k: Keys)
    ensures var t := Missing(w, k);
            && (!w.provider ==> ProviderLine(k) in t)
            && (k.needsOpenai && !w.openai ==> OpenaiLine(k) in t)
            && forall i :: 0 <= i < |t| ==> t[i] == ProviderLine(k) || (k.needsOpenai && t[i] == OpenaiLine(k))
  {
  }

  /** Where the key lines of `a + t` come from. */
  lemma PartsKeys(a: seq<string>, t: seq<string>, k: Keys)
    requires ValidKeyName(k.envKey)
    requires ProviderLine(k) in a || ProviderLine(k) in t
    requires k.needsOpenai ==> OpenaiLine(k) in a || OpenaiLine(k) in t
    requires !k.needsOpenai ==> NoOpenaiLine(a)
    requires !k.needsOpenai ==> forall i :: 0 <= i < |t| ==> t[i] == ProviderLine(k)
    ensures ProviderLine(k) in a + t
    ensures (exists i :: 0 <= i < |a + t| && StartsWith((a + t)[i], OpenaiPrefix)) <==> k.needsOpenai
  {
    if k.needsOpenai {
      assert StartsWith(OpenaiLine(k), OpenaiPrefix);
      assert OpenaiLine(k) in a + t;
    } else {
      ProviderLineNotOpenai(k);
      forall i | 0 <= i < |a + t|
        ensures !StartsWith((a + t)[i], OpenaiPrefix)
      {
        if i >= |a| {
          assert (a + t)[i] == t[i - |a|];
        } else {
          assert (a + t)[i] == a[i];
        }
      }
    }
  }

  /** An `OPENAI_API_KEY=` line is present exactly when one is wanted, and
      the provider line always is. */
  lemma RewriteLinesKeys(lines: seq<string>, k: Keys)
    requires ValidKeyName(k.envKey)
    ensures ProviderLine(k) in RewriteLines(lines, k)
    ensures (exists i :: 0 <= i < |RewriteLines(lines, k)| && StartsWith(RewriteLines(lines, k)[i], OpenaiPrefix))
            <==> k.needsOpenai
  {
    var st := RewriteAll(Written(false, false), lines, k);
    RewriteAllWritten(Written(false, false), lines, k);
    MissingKeys(st.written, k);
    PartsKeys(st.lines, Missing(st.written, k), k);
  }

  /** The rewritten `.env` sets the provider's variable to the trimmed key,
      has an `OPENAI_API_KEY=` line exactly when one is wanted, and keeps
      every other template line, in order. */
  lemma RewriteLinesCorrect(lines: seq<string>, k: Keys)
    requires ValidKeyName(k.envKey)
    ensures ProviderLine(k) in RewriteLines(lines, k)
    ensures (exists i :: 0 <= i < |RewriteLines(lines, k)| && StartsWith(RewriteLines(lines, k)[i], OpenaiPrefix))
            <==> k.needsOpenai
    ensures Others(RewriteLines(lines, k), k) == KeptLines(lines, k)
  {
    RewriteLinesKeys(lines, k);
    RewriteLinesOthers(lines, k);
  }

  /** For the providers that go through the rewrite, `.env` holds the
      provider's variable set to the trimmed key, and holds an
      `OPENAI_API_KEY=` line exactly when the provider embeds with OpenAI
      and an OpenAI key was entered. */
  lemma GenerateEnvContentSetsKeys(template: string, form: Forms.FormData, uuidFragment: string)
    requires Forms.EnvKeyName(form.selectedProvider) != "" && Forms.EnvKeyName(form.selectedProvider) != OpenaiKeyName
    ensures var lines := EnvLines(FillDefaults(template, uuidFragment), form);
            && GenerateEnvContent(template, form, uuidFragment) == Join(lines, "\n")
            && Forms.EnvKeyName(form.selectedProvider) + "=" + Trim(form.apiKey) in lines
            && ((exists i :: 0 <= i < |lines| && StartsWith(lines[i], OpenaiPrefix))
                <==> Forms.NeedsOpenaiEmbedding(form.selectedProvider) && !IsBlank(form.openaiApiKey))
  {
    EnvKeyNamesValid(form.selectedProvider);
    TrimEmptyIffBlank(form.openaiApiKey);
    RewriteLinesCorrect(Lines(FillDefaults(template, uuidFragment)), FormKeys(form));
  }

  // ---------------------------------------------------------------------
  // What the substitutions mean
  // ---------------------------------------------------------------------

  /** The fixed defaults as placeholder bindings, in replacement order. */
  function DefaultBindings(uuidFragment: string): seq<Templates.Binding> {
    [("{{ANALYTICS_AI_SERVICE_PORT}}", "5555"), ("{{USER_UUID}}", "demo-user-" + uuidFragment),
     ("{{GENERATION_MODEL}}", "default"), ("{{HOST_PORT}}", "3000"), ("{{AI_SERVICE_FORWARD_PORT}}", "5555")]
  }

  /** Filling the defaults applies their bindings in order. */
  lemma FillDefaultsIsApply(template: string, uuidFragment: string)
    ensures FillDefaults(template, uuidFragment) == Templates.ApplyBindings(template, DefaultBindings(uuidFragment))
  {
    var d := DefaultBindings(uuidFragment);
    assert d == d[..4] + [d[4]];
    assert d[..4] == d[..3] + [d[3]];
    assert d[..3] == d[..2] + [d[2]];
    assert d[..2] == d[..1] + [d[1]];
    assert d[..1] == [] + [d[0]];
    Templates.ApplySnoc(template, [], d[0]);
    Templates.ApplySnoc(template, d[..1], d[1]);
    Templates.ApplySnoc(template, d[..2], d[2]);
    Templates.ApplySnoc(template, d[..3], d[3]);
    Templates.ApplySnoc(template, d[..4], d[4]);
  }

  lemma PortPlaceholdersBraced()
    ensures Templates.Braced("{{ANALYTICS_AI_SERVICE_PORT}}") && Templates.Braced("{{HOST_PORT}}")
    ensures Templates.Braced("{{AI_SERVICE_FORWARD_PORT}}")
  {
  }

  lemma NamePlaceholdersBraced()
    ensures Templates.Braced("{{USER_UUID}}") && Templates.Braced("{{GENERATION_MODEL}}")
    ensures Templates.Braced(OpenaiPlaceholder)
  {
  }

  /** The default placeholders have the `{{NAME}}` shape, and their values
      hold no brace when the UUID fragment holds none. */
  lemma DefaultsShaped(uuidFragment: string)
    requires Templates.Plain(uuidFragment)
    ensures forall k :: 0 <= k < |DefaultBindings(uuidFragment)| ==>
              Templates.Braced(DefaultBindings(uuidFragment)[k].0) && Templates.Plain(DefaultBindings(uuidFragment)[k].1)
  {
    PortPlaceholdersBraced();
    NamePlaceholdersBraced();
    var user := "demo-user-" + uuidFragment;
    assert Templates.Plain(user) by {
      assert forall i :: 0 <= i < |uuidFragment| ==> user[10 + i] == uuidFragment[i];
    }
  }

  /** The defaults fill every default placeholder of the template with its
      value and leave every other placeholder as it is. */
  lemma FillDefaultsExpands(template: string, uuidFragment: string, pieces: seq<Templates.Piece>)
    requires template == Templates.Spell(pieces) && Templates.WellPieced(pieces)
    requires Templates.Plain(uuidFragment)
    ensures FillDefaults(template, uuidFragment) == Templates.Expand(pieces, DefaultBindings(uuidFragment))
  {
    FillDefaultsIsApply(template, uuidFragment);
    DefaultsShaped(uuidFragment);
    Templates.ApplyBindingsExpands(pieces, DefaultBindings(uuidFragment));
  }

  /** The defaults filled, then the OpenAI placeholder replaced by `value`. */
  lemma FillThenOpenaiExpands(template: string, uuidFragment: string, value: string, pieces: seq<Templates.Piece>)
    requires template == Templates.Spell(pieces) && Templates.WellPieced(pieces)
    requires Templates.Plain(uuidFragment) && Templates.Plain(value)
    ensures Replace(FillDefaults(template, uuidFragment), OpenaiPlaceholder, value)
              == Templates.Expand(pieces, DefaultBindings(uuidFragment) + [(OpenaiPlaceholder, value)])
  {
    var all := DefaultBindings(uuidFragment) + [(OpenaiPlaceholder, value)];
    FillDefaultsIsApply(template, uuidFragment);
    Templates.ApplySnoc(template, DefaultBindings(uuidFragment), (OpenaiPlaceholder, value));
    assert forall k :: 0 <= k < |all| ==> Templates.Braced(all[k].0) && Templates.Plain(all[k].1) by {
      DefaultsShaped(uuidFragment);
      NamePlaceholdersBraced();
    }
    Templates.ApplyBindingsExpands(pieces, all);
  }

  /** For ollama (no variable) and for openai the file is the template with
      the defaults filled and the OpenAI placeholder replaced by nothing or
      by the trimmed key, respectively. */
  lemma GenerateEnvContentSubstitutes(template: string, form: Forms.FormData, uuidFragment: string,
                                      pieces: seq<Templates.Piece>)
    requires template == Templates.Spell(pieces) && Templates.WellPieced(pieces)
    requires Templates.Plain(uuidFragment)
    requires Forms.EnvKeyName(form.selectedProvider) in {"", OpenaiKeyName}
    requires Templates.Plain(Trim(form.apiKey))
    ensures var value := if Forms.EnvKeyName(form.selectedProvider) == "" then "" else Trim(form.apiKey);
            GenerateEnvContent(template, form, uuidFragment)
              == Templates.Expand(pieces, DefaultBindings(uuidFragment) + [(OpenaiPlaceholder, value)])
  {
    var value := if Forms.EnvKeyName(form.selectedProvider) == "" then "" else Trim(form.apiKey);
    FillThenOpenaiExpands(template, uuidFragment, value, pieces);
  }
}
