/**
 * The CosmWasm module of the framework: its configuration, its one command
 * (`new`, scaffold a contract from a template) and how that command turns
 * into the arguments of the template generator.
 */
module CwModule {
  import opened Options
  import opened Paths

  datatype CWConfig = CWConfig(contractDir: string, templateRepo: string)

  /** The configuration used when a project sets nothing. */
  function DefaultConfig(): (cfg: CWConfig)
    ensures cfg.contractDir == "contracts"
    ensures cfg.templateRepo == "InterWasm/cw-template"
  {
    CWConfig("contracts", "InterWasm/cw-template")
  }

  /** The version of the template used when none is asked for: its main branch. */
  const DefaultVersion: string := "main"

  /**
   * The arguments handed to the template generator: contract name, template
   * repository, version, target directory, and a fifth optional argument that
   * the template helper defines (always `None` here).
   */
  datatype Template = Template(name: string, repo: string, version: string, targetDir: Path,
                               extra: Option<string>)

  datatype CWCmd = New(name: string, targetDir: Option<Path>, version: Option<string>)

  /** The template `new_` generates for a contract called `name`. */
  function NewTemplate(cfg: CWConfig, name: string, version: Option<string>, targetDir: Option<Path>): (t: Template)
    ensures t.name == name && t.repo == cfg.templateRepo && t.extra == None
    ensures version == None ==> t.version == DefaultVersion
    ensures version.Some? ==> t.version == version.value
    ensures targetDir == None ==> t.targetDir == cfg.contractDir
    ensures targetDir.Some? ==> t.targetDir == targetDir.value
  {
    Template(name, cfg.templateRepo, version.UnwrapOr(DefaultVersion),
             targetDir.UnwrapOr(cfg.contractDir), None)
  }

  /** `execute`: dispatch a command with the configuration given. */
  function Execute(cfg: CWConfig, cmd: CWCmd): (t: Template) {
    match cmd
    case New(name, targetDir, version) => NewTemplate(cfg, name, version, targetDir)
  }

  /** What the framework context offers this module: its configuration, if it loads. */
  datatype Context = Context(config: Option<CWConfig>)

  /** `execute_`: dispatch a command with the configuration taken from the context. */
  function ExecuteInContext(ctx: Context, cmd: CWCmd): (t: Option<Template>) {
    match ctx.config
    case None => None
    case Some(cfg) =>
      match cmd
      case New(name, targetDir, version) => Some(NewTemplate(cfg, name, version, targetDir))
  }

  /** `execute` forwards the fields of `New` to `new_`, in `new_`'s argument order. */
  lemma ExecuteForwardsNew(cfg: CWConfig, name: string, targetDir: Option<Path>, version: Option<string>)
    ensures Execute(cfg, New(name, targetDir, version)) == NewTemplate(cfg, name, version, targetDir)
  {
  }

  /** `execute_` fails exactly when the configuration does not load, and otherwise does what `execute` does. */
  lemma ExecuteInContextAgrees(ctx: Context, cmd: CWCmd)
    ensures ExecuteInContext(ctx, cmd).None? <==> ctx.config.None?
    ensures ctx.config.Some? ==> ExecuteInContext(ctx, cmd) == Some(Execute(ctx.config.value, cmd))
  {
  }

  /** Without options, contracts go to `contracts/` from the default template's main branch. */
  lemma DefaultVersionAndPath(name: string)
    ensures NewTemplate(DefaultConfig(), name, None, None)
            == Template(name, "InterWasm/cw-template", "main", "contracts", None)
  {
  }

  /** A version that is given is passed on as it is; the directory stays the configured one. */
  lemma CustomVersion(name: string, v: string)
    ensures NewTemplate(DefaultConfig(), name, Some(v), None)
            == Template(name, "InterWasm/cw-template", v, "contracts", None)
  {
  }

  /** A target directory that is given wins over the configured one. */
  lemma CustomPath(cfg: CWConfig, name: string, dir: Path)
    ensures NewTemplate(cfg, name, None, Some(dir)).targetDir == dir
    ensures NewTemplate(cfg, name, None, Some(dir)).version == "main"
  {
  }
}
