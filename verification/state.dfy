/** The wizard's screens and the confirmation menu's options, with which
    options the confirmation screen actually displays. */
module State {
  datatype AppState = Confirmation | EnvSetup | ConfigSelection | Installing | Success | Error(message: string)

  datatype MenuSelection = Proceed | GenerateEnv | GenerateConfig | Cancel

  /** The confirmation screen lists "Generate .env" only while `.env` is
      missing, "Generate config.yaml" only while `config.yaml` is missing,
      "Proceed" only when both exist, and "Cancel" always. */
  predicate Shown(selection: MenuSelection, envExists: bool, configExists: bool) {
    match selection
      case GenerateEnv => !envExists
      case GenerateConfig => !configExists
      case Proceed => envExists && configExists
      case Cancel => true
  }

  /** The first option listed, in display order: .env, config.yaml, Proceed. */
  function FirstShown(envExists: bool, configExists: bool): (r: MenuSelection)
    ensures Shown(r, envExists, configExists) && r != Cancel
    ensures forall s :: s != r && Shown(s, envExists, configExists) ==> DisplayRank(r) < DisplayRank(s)
  {
    if !envExists then GenerateEnv
    else if !configExists then GenerateConfig
    else Proceed
  }

  /** Position of an option on the confirmation screen. */
  function DisplayRank(selection: MenuSelection): nat {
    match selection
      case GenerateEnv => 0
      case GenerateConfig => 1
      case Proceed => 2
      case Cancel => 3
  }
}
