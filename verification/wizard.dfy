/** The installer's event loop: one step per polled event on the current
    screen. The confirmation menu, the `.env` form, the template list, and
    the hand-off to the compose run. Everything the loop reads from outside
    (file writes, the compose runs, the bundled texts) comes in as a
    `World`. The two menu defects of the code as written are modelled by
    the `AsWritten` variant; the rest of the model uses `Corrected`. */
module Wizard {
  import opened Util
  import opened State
  import Forms
  import Templates
  import EnvFile
  import Install

  datatype KeyCode = Up | Down | Tab | Enter | Esc | Backspace | Char(c: char) | Other

  /** A key press; `ctrl` says whether Control was held. Key releases,
      other terminal events and poll time-outs arrive as no event. */
  datatype Key = Key(code: KeyCode, ctrl: bool)

  predicate IsCtrlC(key: Key) {
    key.code == Char('c') && key.ctrl
  }

  datatype App = App(
    running: bool,
    state: AppState,
    monitor: Install.Monitor,
    envExists: bool,
    configExists: bool,
    form: Forms.FormData,
    menu: MenuSelection,
    configIndex: nat)

  /** The code as written, or with the two menu corrections. */
  datatype Variant = AsWritten | Corrected

  /** What one step learns from outside: the bundled `.env` template, the
      UUID fragment, each provider's bundled config text (by template key)
      and the shared sections, whether each file write fails (with its
      error text), and the two compose runs. */
  datatype World = World(
    envTemplate: string,
    uuidFragment: string,
    providerText: string -> string,
    sections: Templates.Sections,
    envWriteError: Option<string>,
    configWriteError: Option<string>,
    build: Install.ProcessRun,
    up: Install.ProcessRun)

  const EnvPath: string := ".env"
  const ConfigPath: string := "config.yaml"

  datatype FileWrite = FileWrite(path: string, content: string)

  /** The state after a step and the file the step wrote, if any. */
  datatype Outcome = Outcome(app: App, written: Option<FileWrite>)

  const StartMessage: string := "\U{1F680} Starting Analytics installation..."

  // ---------------------------------------------------------------------
  // Start-up and the confirmation menu
  // ---------------------------------------------------------------------

  /** The option selected at start: config.yaml first, then .env. */
  function InitialMenu(envExists: bool, configExists: bool): (r: MenuSelection)
    ensures Shown(r, envExists, configExists) && r != Cancel
    ensures !configExists ==> r == GenerateConfig
    ensures configExists && !envExists ==> r == GenerateEnv
  {
    if !configExists then GenerateConfig
    else if !envExists then GenerateEnv
    else Proceed
  }

  /** The app at start-up: running, on the menu, nothing logged or
      counted, the template list at its first entry, and a displayed
      option other than Cancel selected. */
  function NewApp(envExists: bool, configExists: bool): (r: App)
    ensures r.running && r.state == Confirmation && r.configIndex == 0
    ensures r.monitor.logs == [] && r.monitor.progress == 0.0 && r.monitor.completedServices == 0
    ensures r.envExists == envExists && r.configExists == configExists
    ensures Shown(r.menu, envExists, configExists) && r.menu != Cancel
  {
    App(true, Confirmation, Install.NewMonitor(), envExists, configExists, Forms.NewForm(),
        InitialMenu(envExists, configExists), 0)
  }

  /** Moving up as the code does it: from "Generate .env" always to
      "Generate config.yaml", even when that option is not displayed. */
  function MenuUpAsWritten(selection: MenuSelection, envExists: bool, configExists: bool): (r: MenuSelection)
    ensures Shown(r, envExists, configExists) <==> !(selection == GenerateEnv && configExists)
  {
    match selection
      case Proceed =>
        if !configExists then GenerateConfig else if !envExists then GenerateEnv else Cancel
      case GenerateEnv => GenerateConfig
      case GenerateConfig => Cancel
      case Cancel =>
        if envExists && configExists then Proceed
        else if !configExists then GenerateConfig
        else GenerateEnv
  }

  /** Moving up with the correction: Up and Down undo each other on every
      displayed option (the displayed option Down takes to `selection` is
      exactly `r`). From "Generate .env" it goes to "Generate config.yaml" only
      while that option is displayed, else to "Cancel"; from "Cancel" it goes
      to the option Down visits last before returning to "Cancel" (Down's
      order is config first, then env, then "Proceed"), which is "Generate
      .env" whenever that option is displayed. */
  function MenuUp(selection: MenuSelection, envExists: bool, configExists: bool): (r: MenuSelection)
    ensures Shown(r, envExists, configExists)
    ensures Shown(selection, envExists, configExists) ==> MenuDown(r, envExists, configExists) == selection
    ensures forall t :: Shown(t, envExists, configExists) && MenuDown(t, envExists, configExists) == selection ==> t == r
    ensures !(selection == GenerateEnv && configExists) && !(selection == Cancel && !envExists && !configExists)
            ==> r == MenuUpAsWritten(selection, envExists, configExists)
  {
    match selection
      case Proceed =>
        if !configExists then GenerateConfig else if !envExists then GenerateEnv else Cancel
      case GenerateEnv => if configExists then Cancel else GenerateConfig
      case GenerateConfig => Cancel
      case Cancel =>
        if envExists && configExists then Proceed
        else if !envExists then GenerateEnv
        else GenerateConfig
  }

  /** Down and Tab. */
  function MenuDown(selection: MenuSelection, envExists: bool, configExists: bool): (r: MenuSelection)
    ensures Shown(r, envExists, configExists)
  {
    match selection
      case Proceed => Cancel
      case GenerateEnv => if configExists && envExists then Proceed else Cancel
      case GenerateConfig => if !envExists then GenerateEnv else Cancel
      case Cancel =>
        if !configExists then GenerateConfig else if !envExists then GenerateEnv else Proceed
  }

  /** Moving down cycles through every displayed option: from any displayed
      option each displayed option is at most three presses away. */
  lemma MenuDownVisitsAll(s: MenuSelection, t: MenuSelection, envExists: bool, configExists: bool)
    requires Shown(s, envExists, configExists) && Shown(t, envExists, configExists)
    ensures var d1 := MenuDown(s, envExists, configExists);
            var d2 := MenuDown(d1, envExists, configExists);
            t == s || t == d1 || t == d2 || t == MenuDown(d2, envExists, configExists)
  {
  }

  /** The key handling of the confirmation screen: the new selection and
      the action chosen, if any. */
  function ConfirmationKey(selection: MenuSelection, envExists: bool, configExists: bool, key: Key, v: Variant)
    : (r: (MenuSelection, Option<MenuSelection>))
    ensures r.1.Some? ==> r.0 == selection
    ensures r.0 != selection ==> key.code == Up || key.code == Down || key.code == Tab
    ensures key.code == Enter ==> r.1 == Some(selection)
    ensures r.1.Some? && r.1.value != Cancel ==> key.code == Enter
    ensures key.code == Esc || key.code == Char('q') || IsCtrlC(key) ==> r.1 == Some(Cancel)
    ensures key.code == Down || key.code == Tab ==> Shown(r.0, envExists, configExists)
    ensures v == Corrected && (key.code == Up || Shown(selection, envExists, configExists)) ==>
              Shown(r.0, envExists, configExists)
  {
    match key.code
      case Up =>
        (if v == Corrected then MenuUp(selection, envExists, configExists)
         else MenuUpAsWritten(selection, envExists, configExists), None)
      case Down => (MenuDown(selection, envExists, configExists), None)
      case Tab => (MenuDown(selection, envExists, configExists), None)
      case Enter => (selection, Some(selection))
      case Esc => (selection, Some(Cancel))
      case Char(c) =>
        if c == 'q' || (c == 'c' && key.ctrl) then (selection, Some(Cancel)) else (selection, None)
      case _ => (selection, None)
  }

  /** Carrying out a chosen action. Proceed installs only when both files
      exist; the two generate actions open the template list unless the
      form can be shown directly; Cancel stops the loop. */
  function RunAction(app: App, action: MenuSelection, w: World): (r: Outcome)
    requires app.running && app.state == Confirmation
    ensures r.written.None?
    ensures r.app.running <==> action != Cancel
    ensures r.app.state.Success? || r.app.state.Error? ==> action == Proceed && app.envExists && app.configExists
    ensures r.app.state.Success? ==> r.app.monitor.progress == 100.0
    ensures action == Proceed && app.envExists && app.configExists ==>
              (r.app.state.Success? <==> Install.Succeeded(w.build) && Install.Succeeded(w.up))
    ensures r.app.state == EnvSetup <==>
              action == GenerateEnv && app.configExists && app.form.selectedProvider != []
    ensures r.app.state == ConfigSelection ==> r.app.configIndex == 0
    ensures r.app.envExists == app.envExists && r.app.configExists == app.configExists
    ensures r.app.form == app.form && r.app.menu == app.menu
  {
    match action
      case Proceed =>
        if app.envExists && app.configExists then
          var announced := app.monitor.(logs := app.monitor.logs + [StartMessage]);
          var (m, result) := Install.RunDockerCompose(announced, w.build, w.up);
          if result.Ok? then Outcome(app.(state := Success, monitor := m.(progress := 100.0)), None)
          else Outcome(app.(state := Error("Installation failed: " + result.error), monitor := m), None)
        else Outcome(app, None)
      case GenerateEnv =>
        if !app.configExists || app.form.selectedProvider == [] then
          Outcome(app.(configIndex := 0, state := ConfigSelection), None)
        else Outcome(app.(state := EnvSetup), None)
      case GenerateConfig => Outcome(app.(configIndex := 0, state := ConfigSelection), None)
      case Cancel => Outcome(app.(running := false), None)
  }

  /** A key on the confirmation screen: move the selection, or carry out
      the chosen action. Esc, 'q' and Ctrl+C cancel. */
  function ConfirmationStep(app: App, key: Key, w: World, v: Variant): (r: Outcome)
    requires app.running && app.state == Confirmation
    ensures r.written.None?
    ensures r.app.envExists == app.envExists && r.app.configExists == app.configExists
    ensures r.app.state.Success? ==> app.envExists && app.configExists && r.app.monitor.progress == 100.0
    ensures IsCtrlC(key) || key.code == Esc || key.code == Char('q') ==> !r.app.running
    ensures r.app.state != Confirmation ==> key.code == Enter
  {
    var (selection, action) := ConfirmationKey(app.menu, app.envExists, app.configExists, key, v);
    var moved := app.(menu := selection);
    if action.None? then Outcome(moved, None) else RunAction(moved, action.value, w)
  }

  // ---------------------------------------------------------------------
  // The .env form
  // ---------------------------------------------------------------------

  /** The key handling of the form: the updated form, and whether the user
      saved (`Some(true)`) or left (`Some(false)`). */
  function FormKey(form: Forms.FormData, key: Key): (r: (Forms.FormData, Option<bool>))
    ensures r.0.selectedProvider == form.selectedProvider
    ensures form.currentField < Forms.TotalFields(form) ==> r.0.currentField < Forms.TotalFields(r.0)
    ensures r.1 == Some(true) <==> !form.editing && key.code == Char('s') && key.ctrl && Forms.Validate(form).0
    ensures r.1 == Some(false) <==> !form.editing && (key.code == Esc || key.code == Char('q') || IsCtrlC(key))
    ensures form.editing && key.code.Char? ==>
              Forms.CurrentValue(r.0) == Forms.CurrentValue(form) + [key.code.c] && r.0.editing
    ensures form.editing ==> r.0.currentField == form.currentField
  {
    if form.editing then
      match key.code
        case Enter => (form.(editing := false), None)
        case Esc => (form.(editing := false), None)
        case Char(c) => (Forms.WithCurrentValue(form, Forms.CurrentValue(form) + [c]), None)
        case Backspace =>
          var value := Forms.CurrentValue(form);
          (Forms.WithCurrentValue(form, if value == [] then [] else value[..|value| - 1]), None)
        case _ => (form, None)
    else
      match key.code
        case Enter =>
          (if form.currentField < Forms.TotalFields(form) then form.(editing := true) else form, None)
        case Up =>
          (if form.currentField > 0 then form.(currentField := form.currentField - 1) else form, None)
        case Down => (NextField(form), None)
        case Tab => (NextField(form), None)
        case Esc => (form, Some(false))
        case Char(c) =>
          if c == 's' && key.ctrl then
            var (ok, validated) := Forms.Validate(form);
            (validated, if ok then Some(true) else None)
          else if c == 'q' || (c == 'c' && key.ctrl) then (form, Some(false))
          else (form, None)
        case _ => (form, None)
  }

  function NextField(form: Forms.FormData): Forms.FormData {
    if form.currentField < Forms.TotalFields(form) - 1 then form.(currentField := form.currentField + 1) else form
  }

  /** Typing a character and then Backspace restores the form. */
  lemma TypeThenBackspace(form: Forms.FormData, c: char, ctrl: bool)
    requires form.editing
    ensures FormKey(FormKey(form, Key(Char(c), ctrl)).0, Key(Backspace, false)).0 == form
  {
    var typed := FormKey(form, Key(Char(c), ctrl)).0;
    Forms.CurrentValueRoundTrip(form, Forms.CurrentValue(form) + [c]);
    var value := Forms.CurrentValue(typed);
    assert value[..|value| - 1] == Forms.CurrentValue(form);
    Forms.CurrentValueRoundTrip(form, Forms.CurrentValue(form));
  }

  /** Back to the menu from the form with the correction: a selection that
      is no longer displayed is replaced by the first displayed option. */
  function Reselect(selection: MenuSelection, envExists: bool, configExists: bool): (r: MenuSelection)
    ensures Shown(r, envExists, configExists)
    ensures Shown(selection, envExists, configExists) ==> r == selection
  {
    if Shown(selection, envExists, configExists) then selection else FirstShown(envExists, configExists)
  }

  function EnvSetupStep(app: App, key: Key, w: World, v: Variant): (r: Outcome)
    requires app.state == EnvSetup
    ensures r.app.envExists <==> app.envExists || r.written.Some?
    ensures r.written.Some? ==>
              r.written.value == FileWrite(EnvPath, EnvFile.GenerateEnvContent(w.envTemplate, r.app.form, w.uuidFragment))
              && r.app.state == Confirmation && r.app.envExists && Forms.Validate(app.form).0
    ensures r.app.state.Error? <==> FormKey(app.form, key).1 == Some(true) && w.envWriteError.Some?
    ensures r.app.configExists == app.configExists
  {
    var (form, decision) := FormKey(app.form, key);
    var updated := app.(form := form);
    if decision == Some(true) then
      if w.envWriteError.Some? then
        Outcome(updated.(state := Error("Failed to generate .env: " + w.envWriteError.value)), None)
      else
        Outcome(updated.(envExists := true, state := Confirmation,
                         menu := if !app.configExists then GenerateConfig else Proceed),
                Some(FileWrite(EnvPath, EnvFile.GenerateEnvContent(w.envTemplate, form, w.uuidFragment))))
    else if decision == Some(false) then
      var menu := if v == Corrected then Reselect(app.menu, app.envExists, app.configExists) else app.menu;
      Outcome(updated.(state := Confirmation, menu := menu), None)
    else Outcome(updated, None)
  }

  // ---------------------------------------------------------------------
  // The template list
  // ---------------------------------------------------------------------

  /** The selected index, clamped into the list before any key is read. */
  function ClampIndex(index: nat): (r: nat)
    ensures r < Templates.TemplateCount
    ensures index < Templates.TemplateCount ==> r == index
  {
    if index >= Templates.TemplateCount then Templates.TemplateCount - 1 else index
  }

  /** Up wraps from the first entry to the last; Down and Tab wrap from the
      last to the first. */
  function IndexUp(index: nat): nat
    requires index < Templates.TemplateCount
  {
    if index == 0 then Templates.TemplateCount - 1 else index - 1
  }

  function IndexDown(index: nat): nat
    requires index < Templates.TemplateCount
  {
    (index + 1) % Templates.TemplateCount
  }

  /** Up and Down undo each other and stay inside the list. */
  lemma IndexUpDownInverse(index: nat)
    requires index < Templates.TemplateCount
    ensures IndexUp(index) < Templates.TemplateCount && IndexDown(index) < Templates.TemplateCount
    ensures IndexDown(IndexUp(index)) == index && IndexUp(IndexDown(index)) == index
  {
  }

  /** The form after a template was written: the template's provider, both
      keys cleared, the first field selected, not editing, no error. */
  function FormFor(form: Forms.FormData, provider: string): (r: Forms.FormData)
    ensures r == Forms.NewForm().(selectedProvider := provider)
  {
    form.(selectedProvider := provider, apiKey := "", openaiApiKey := "", currentField := 0,
          editing := false, errorMessage := "")
  }

  function ConfigSelectionStep(app: App, event: Option<Key>, w: World): (r: Outcome)
    requires app.state == ConfigSelection
    ensures r.app.configIndex < Templates.TemplateCount
    ensures r.written.Some? ==>
              var t := Templates.ConfigTemplates[ClampIndex(app.configIndex)];
              r.written.value == FileWrite(ConfigPath, Templates.Render(t, w.providerText(t.key), w.sections))
              && r.app.configExists && r.app.form == Forms.NewForm().(selectedProvider := t.key)
              && (r.app.state == EnvSetup <==> !app.envExists)
              && (r.app.state == Confirmation <==> app.envExists)
              && (app.envExists ==> r.app.menu == Proceed)
    ensures r.written.None? ==> r.app.form == app.form && r.app.menu == app.menu && r.app.configExists == app.configExists
    ensures r.app.monitor == app.monitor
    ensures r.app.envExists == app.envExists
    ensures !r.app.configExists ==> !app.configExists
    ensures r.app.state.Error? <==> w.configWriteError.Some? && event.Some? && event.value.code == Enter
    ensures r.app.state == Confirmation || r.app.state == ConfigSelection || r.app.state == EnvSetup || r.app.state.Error?
  {
    Templates.TemplateTableSize();
    var index := ClampIndex(app.configIndex);
    var clamped := app.(configIndex := index);
    if event.None? then Outcome(clamped, None)
    else
      var key := event.value;
      match key.code
        case Up => Outcome(clamped.(configIndex := IndexUp(index)), None)
        case Down => Outcome(clamped.(configIndex := IndexDown(index)), None)
        case Tab => Outcome(clamped.(configIndex := IndexDown(index)), None)
        case Enter =>
          var t := Templates.ConfigTemplates[index];
          if w.configWriteError.Some? then
            Outcome(clamped.(state := Error("Failed to generate config.yaml: " + w.configWriteError.value)), None)
          else
            var chosen := clamped.(configExists := true, form := FormFor(app.form, t.key));
            var next := if !app.envExists then chosen.(state := EnvSetup)
                        else chosen.(state := Confirmation, menu := Proceed);
            Outcome(next, Some(FileWrite(ConfigPath, Templates.Render(t, w.providerText(t.key), w.sections))))
        case Esc => Outcome(clamped.(state := Confirmation), None)
        case Char(c) =>
          if c == 'q' then Outcome(clamped.(state := Confirmation), None)
          else if c == 'c' && key.ctrl then Outcome(clamped.(running := false), None)
          else Outcome(clamped, None)
        case _ => Outcome(clamped, None)
  }

  // ---------------------------------------------------------------------
  // One step of the loop
  // ---------------------------------------------------------------------

  /** One pass of the loop on the current screen. */
  function Step(app: App, event: Option<Key>, w: World, v: Variant): (r: Outcome)
    requires app.running
    ensures app.envExists ==> r.app.envExists
    ensures app.configExists ==> r.app.configExists
    ensures r.app.envExists && !app.envExists ==> r.written.Some? && r.written.value.path == EnvPath
    ensures r.app.configExists && !app.configExists ==> r.written.Some? && r.written.value.path == ConfigPath
    ensures r.app.state.Success? && !app.state.Success? ==>
              app.state == Confirmation && app.envExists && app.configExists && r.app.monitor.progress == 100.0
    ensures event.Some? && IsCtrlC(event.value) && app.state != EnvSetup ==> !r.app.running
    ensures event.None? && app.state != ConfigSelection ==> r == Outcome(app, None)
  {
    match app.state
      case Confirmation =>
        if event.None? then Outcome(app, None) else ConfirmationStep(app, event.value, w, v)
      case EnvSetup =>
        if event.None? then Outcome(app, None) else EnvSetupStep(app, event.value, w, v)
      case ConfigSelection => ConfigSelectionStep(app, event, w)
      case _ =>
        if event.Some? && IsCtrlC(event.value) then Outcome(app.(running := false), None) else Outcome(app, None)
  }

  // ---------------------------------------------------------------------
  // The invariant of the corrected loop
  // ---------------------------------------------------------------------

  predicate PreInstall(state: AppState) {
    state == Confirmation || state == EnvSetup || state == ConfigSelection
  }

  /** On the menu and the template list the selection is a displayed
      option; the form's field and the template index are in range; nothing
      is logged before installing; the log holds at most `MaxLogs` lines. */
  predicate WellFormed(app: App) {
    && (app.state == Confirmation || app.state == ConfigSelection ==> Shown(app.menu, app.envExists, app.configExists))
    && app.form.currentField < Forms.TotalFields(app.form)
    && app.configIndex < Templates.TemplateCount
    && (PreInstall(app.state) ==> app.monitor == Install.NewMonitor())
    && |app.monitor.logs| <= Install.MaxLogs
  }

  lemma NewAppWellFormed(envExists: bool, configExists: bool)
    ensures WellFormed(NewApp(envExists, configExists))
    ensures NewApp(envExists, configExists).menu != Cancel
  {
  }

  lemma RunActionWellFormed(app: App, action: MenuSelection, w: World)
    requires WellFormed(app) && app.running && app.state == Confirmation
    requires action == Cancel || action == app.menu
    ensures WellFormed(RunAction(app, action, w).app)
  {
    if action == Proceed && app.envExists && app.configExists {
      var announced := app.monitor.(logs := app.monitor.logs + [StartMessage]);
      assert |announced.logs| == 1;
    }
  }

  lemma ConfirmationStepWellFormed(app: App, key: Key, w: World)
    requires WellFormed(app) && app.running && app.state == Confirmation
    ensures WellFormed(ConfirmationStep(app, key, w, Corrected).app)
  {
    var (selection, action) := ConfirmationKey(app.menu, app.envExists, app.configExists, key, Corrected);
    if action.Some? {
      RunActionWellFormed(app.(menu := selection), action.value, w);
    }
  }

  lemma EnvSetupStepWellFormed(app: App, key: Key, w: World)
    requires WellFormed(app) && app.state == EnvSetup
    ensures WellFormed(EnvSetupStep(app, key, w, Corrected).app)
  {
  }

  lemma ConfigSelectionStepWellFormed(app: App, event: Option<Key>, w: World)
    requires WellFormed(app) && app.state == ConfigSelection
    ensures WellFormed(ConfigSelectionStep(app, event, w).app)
  {
    var r := ConfigSelectionStep(app, event, w);
    if r.written.Some? {
      assert r.app.form.currentField == 0;
    } else {
      assert r.app.form == app.form && r.app.menu == app.menu;
    }
  }

  /** Every corrected step keeps the invariant. */
  lemma StepWellFormed(app: App, event: Option<Key>, w: World)
    requires WellFormed(app) && app.running
    ensures WellFormed(Step(app, event, w, Corrected).app)
  {
    match app.state
      case Confirmation =>
        if event.Some? {
          ConfirmationStepWellFormed(app, event.value, w);
        }
      case EnvSetup =>
        if event.Some? {
          EnvSetupStepWellFormed(app, event.value, w);
        }
      case ConfigSelection => ConfigSelectionStepWellFormed(app, event, w);
      case _ =>
  }

  // ---------------------------------------------------------------------
  // The two defects of the code as written
  // ---------------------------------------------------------------------

  /** With config.yaml present and .env missing, Up from "Generate .env"
      selects "Generate config.yaml", which the menu does not display. */
  lemma UpFromGenerateEnvAsWritten(w: World)
    ensures var app := NewApp(false, true);
            && app.menu == GenerateEnv && WellFormed(app)
            && var next := Step(app, Some(Key(Up, false)), w, AsWritten).app;
               next.menu == GenerateConfig && !Shown(next.menu, next.envExists, next.configExists)
               && next.state == Confirmation && !WellFormed(next)
  {
  }

  /** With neither file present: Enter on "Generate config.yaml", Enter on
      the first template (written), then Esc on the form returns to the menu
      with "Generate config.yaml" still selected, though it is no longer
      displayed. The correction selects "Generate .env" instead. */
  lemma LeaveFormAfterConfigAsWritten(w: World)
    requires w.configWriteError.None?
    ensures var app0 := NewApp(false, false);
            var app1 := Step(app0, Some(Key(Enter, false)), w, AsWritten).app;
            var app2 := Step(app1, Some(Key(Enter, false)), w, AsWritten).app;
            && app0.menu == GenerateConfig && app1.state == ConfigSelection
            && app2.state == EnvSetup && app2.configExists && app2.menu == GenerateConfig
            && var app3 := Step(app2, Some(Key(Esc, false)), w, AsWritten).app;
               app3.state == Confirmation && app3.menu == GenerateConfig
               && !Shown(app3.menu, app3.envExists, app3.configExists)
               && Step(app2, Some(Key(Esc, false)), w, Corrected).app.menu == GenerateEnv
  {
    Templates.TemplateTableSize();
  }

  /** With neither file present, Up as the code does it alternates between
      "Generate config.yaml" and "Cancel": from "Cancel" it goes to "Generate
      config.yaml", which Down reaches only from "Cancel" itself, and no
      option other than "Generate .env" moves up to "Generate .env". The
      correction goes from "Cancel" to "Generate .env". */
  lemma UpFromCancelAsWritten(w: World)
    ensures var app0 := NewApp(false, false);
            var app1 := Step(app0, Some(Key(Up, false)), w, AsWritten).app;
            var app2 := Step(app1, Some(Key(Up, false)), w, AsWritten).app;
            && app0.menu == GenerateConfig && app1.menu == Cancel && app2.menu == GenerateConfig
            && MenuDown(MenuUpAsWritten(Cancel, false, false), false, false) != Cancel
            && (forall s :: s != GenerateEnv ==> MenuUpAsWritten(s, false, false) != GenerateEnv)
            && Step(app1, Some(Key(Up, false)), w, Corrected).app.menu == GenerateEnv
  {
  }
}
