/**
 * The "Charts" dashboard block: which chart of which individual a block shows,
 * the self-healing reset of an unresolvable individual to the tree's root, the
 * configuration link, and the guarded saving of the block's settings.
 *
 * The rendered HTML is replaced by an abstract output naming the chart and its
 * subject; the signed-in user, the tree and the dashboard type are a `Context`.
 */
module ChartsBlock {
  import opened Wrappers
  import opened PhpArrays

  /** The four chart types a block can show. */
  datatype ChartKind = Pedigree | Descendants | Hourglass | TreeNav

  /** An individual of the tree, as far as the block uses it. */
  datatype Individual = Individual(xref: string, fullName: string)

  /** The block title: the module's own ("Charts") or "<chart> of <name>". */
  datatype Title = ModuleTitle | ChartTitle(kind: ChartKind, subjectName: string)

  /** The block content: a chart of an individual, the "select an individual" message, or nothing. */
  datatype Content = Chart(kind: ChartKind, subject: Individual) | SelectIndividualMessage | NoContent

  /** The block wrapped in its template (with or without a configuration link), or the bare content. */
  datatype BlockOutput =
    | Templated(blockId: int, configLink: bool, title: Title, content: Content)
    | Raw(content: Content)

  /** The values the configuration form is filled in with. */
  datatype FormState = FormState(chartType: string, subject: Option<Individual>)

  /**
   * The request's environment: the tree's PEDIGREE_ROOT_ID, the user's `gedcomid` preference,
   * whether a user is signed in and manages the tree, the dashboard type (`ctype`) and the
   * lookup of an xref as an individual of the tree.
   */
  datatype Context = Context(rootId: string, gedcomid: string, signedIn: bool, isManager: bool,
                             ctype: string, individual: string -> Option<Individual>)

  /** Stored block settings: (block id, setting name) to value. */
  type Settings = map<(int, string), string>

  function KindName(k: ChartKind): string
  {
    match k
    case Pedigree => "pedigree"
    case Descendants => "descendants"
    case Hourglass => "hourglass"
    case TreeNav => "treenav"
  }

  /** The chart a type string selects; any string other than the four names selects none. */
  function KindOf(name: string): (r: Option<ChartKind>)
    ensures r.Some? ==> KindName(r.value) == name
    ensures r.None? ==> forall k :: KindName(k) != name
  {
    if name == "pedigree" then Some(Pedigree)
    else if name == "descendants" then Some(Descendants)
    else if name == "hourglass" then Some(Hourglass)
    else if name == "treenav" then Some(TreeNav)
    else None
  }

  lemma KindNameRoundTrip(k: ChartKind)
    ensures KindOf(KindName(k)) == Some(k)
  {
  }

  /** A stored setting, or `default` when the block has none. */
  function BlockSetting(settings: Settings, blockId: int, name: string, default: string): string
  {
    if (blockId, name) in settings then settings[(blockId, name)] else default
  }

  /** The individual a block shows when nothing is stored or asked for. */
  function DefaultPid(ctx: Context): (r: string)
    ensures ctx.signedIn && ctx.gedcomid != "" && ctx.gedcomid != "0" ==> r == ctx.gedcomid
    ensures !ctx.signedIn || ctx.gedcomid == "" || ctx.gedcomid == "0" ==> r == ctx.rootId
  {
    if ctx.signedIn then (if !Falsy(ctx.gedcomid) then ctx.gedcomid else ctx.rootId) else ctx.rootId
  }

  /** The chart type after the `cfg` override. */
  function RequestedType(settings: Settings, blockId: int, cfg: map<string, string>): string
  {
    if "type" in cfg then cfg["type"] else BlockSetting(settings, blockId, "type", "pedigree")
  }

  /** The individual's xref after the `cfg` override. */
  function RequestedPid(settings: Settings, ctx: Context, blockId: int, cfg: map<string, string>): string
  {
    if "pid" in cfg then cfg["pid"] else BlockSetting(settings, blockId, "pid", DefaultPid(ctx))
  }

  /** The individual shown: the requested one, else the tree's root individual, else none. */
  function Subject(ctx: Context, pid: string): Option<Individual>
  {
    if ctx.individual(pid).Some? then ctx.individual(pid) else ctx.individual(ctx.rootId)
  }

  /** Title and content for a chart type and a subject. */
  function Dispatch(chartType: string, subject: Option<Individual>): (Title, Content)
  {
    match subject
    case None => (ModuleTitle, SelectIndividualMessage)
    case Some(p) =>
      match KindOf(chartType)
      case Some(k) => (ChartTitle(k, p.fullName), Chart(k, p))
      case None => (ModuleTitle, NoContent)
  }

  /** Tree managers may configure tree dashboards, signed-in users their own dashboard. */
  function ConfigLinkShown(ctx: Context): bool
  {
    (ctx.ctype == "gedcom" && ctx.isManager) || (ctx.ctype == "user" && ctx.signedIn)
  }

  /** What `getBlock` returns. */
  function Render(settings: Settings, ctx: Context, blockId: int, template: bool, cfg: map<string, string>): BlockOutput
  {
    var subject := Subject(ctx, RequestedPid(settings, ctx, blockId, cfg));
    var (title, content) := Dispatch(RequestedType(settings, blockId, cfg), subject);
    if template then Templated(blockId, ConfigLinkShown(ctx), title, content) else Raw(content)
  }

  /** The settings after `getBlock`: an unresolvable pid is replaced by the tree's root. */
  function SettingsAfterRender(settings: Settings, ctx: Context, blockId: int, cfg: map<string, string>): Settings
  {
    if ctx.individual(RequestedPid(settings, ctx, blockId, cfg)).None?
    then settings[(blockId, "pid") := ctx.rootId]
    else settings
  }

  /** `Filter::post('type', ...)`: a posted chart type if it is one of the four, else "pedigree". */
  function PostedType(posted: Option<string>): (r: string)
    ensures KindOf(r).Some?
    ensures posted.Some? && KindOf(posted.value).Some? ==> r == posted.value
    ensures posted.None? || KindOf(posted.value).None? ==> r == "pedigree"
  {
    if posted.Some? && KindOf(posted.value).Some? then posted.value else "pedigree"
  }

  /** `Filter::post('pid', WT_REGEX_XREF)`: a posted xref, or null when absent or malformed. */
  function PostedPid(posted: Option<string>, isXref: string -> bool): (r: Option<string>)
    ensures posted.Some? && isXref(posted.value) ==> r == posted
    ensures posted.None? || !isXref(posted.value) ==> r == None
  {
    if posted.Some? && isXref(posted.value) then posted else None
  }

  /** Store a setting; storing null removes it. */
  function StoreSetting(settings: Settings, blockId: int, name: string, value: Option<string>): Settings
  {
    match value
    case Some(v) => settings[(blockId, name) := v]
    case None => settings - {(blockId, name)}
  }

  /** Reading a setting after storing it gives the stored value (the default after a removal); other settings are unaffected. */
  lemma BlockSettingAfterStore(settings: Settings, blockId: int, name: string, value: Option<string>,
                               readId: int, readName: string, default: string)
    ensures (readId, readName) == (blockId, name) ==>
      BlockSetting(StoreSetting(settings, blockId, name, value), readId, readName, default)
        == (if value.Some? then value.value else default)
    ensures (readId, readName) != (blockId, name) ==>
      BlockSetting(StoreSetting(settings, blockId, name, value), readId, readName, default)
        == BlockSetting(settings, readId, readName, default)
  {
  }

  /** The settings after `configureBlock`: written only on a save request with a valid CSRF token. */
  function SettingsAfterConfigure(settings: Settings, blockId: int, save: bool, csrfValid: bool,
                                  postedType: Option<string>, postedPid: Option<string>,
                                  isXref: string -> bool): Settings
  {
    if save && csrfValid then
      StoreSetting(StoreSetting(settings, blockId, "type", Some(PostedType(postedType))),
                   blockId, "pid", PostedPid(postedPid, isXref))
    else settings
  }

  /** The block's module: its stored settings are the state it updates. */
  class ChartsBlockModule {
    var settings: Settings

    constructor (settings: Settings)
      ensures this.settings == settings
    {
      this.settings := settings;
    }

    function GetTitle(): (r: Title)
      ensures r == ModuleTitle
    {
      ModuleTitle
    }

    /** The block is loaded asynchronously. */
    function LoadAjax(): (r: bool)
      ensures r
    {
      true
    }

    /** The block may be placed on a user's dashboard. */
    function IsUserBlock(): (r: bool)
      ensures r
    {
      true
    }

    /** The block may be placed on a tree's dashboard. */
    function IsGedcomBlock(): (r: bool)
      ensures r
    {
      true
    }

    method GetBlockSetting(blockId: int, name: string, default: string) returns (value: string)
      ensures value == BlockSetting(settings, blockId, name, default)
    {
      value := BlockSetting(settings, blockId, name, default);
    }

    method SetBlockSetting(blockId: int, name: string, value: Option<string>)
      modifies this
      ensures settings == StoreSetting(old(settings), blockId, name, value)
    {
      settings := StoreSetting(settings, blockId, name, value);
    }

    /**
     * Choose the chart type and individual (`cfg` over stored setting over default),
     * reset an unresolvable individual to the tree's root and store that, then dispatch.
     */
    method GetBlock(blockId: int, template: bool, cfg: map<string, string>, ctx: Context) returns (out: BlockOutput)
      modifies this
      ensures out == Render(old(settings), ctx, blockId, template, cfg)
      ensures settings == SettingsAfterRender(old(settings), ctx, blockId, cfg)
    {
      var root := ctx.rootId;
      var chartType := GetBlockSetting(blockId, "type", "pedigree");
      var pid := GetBlockSetting(blockId, "pid", DefaultPid(ctx));
      ghost var storedType, storedPid := chartType, pid;

      var overridable := ["type", "pid"];
      for i := 0 to |overridable|
        invariant chartType == if i > 0 && "type" in cfg then cfg["type"] else storedType
        invariant pid == if i > 1 && "pid" in cfg then cfg["pid"] else storedPid
      {
        var name := overridable[i];
        if name in cfg {
          if name == "type" {
            chartType := cfg[name];
          } else {
            pid := cfg[name];
          }
        }
      }

      var person := ctx.individual(pid);
      if person.None? {
        pid := root;
        SetBlockSetting(blockId, "pid", Some(pid));
        person := ctx.individual(pid);
      }

      var title := GetTitle();
      var content;
      if person.Some? {
        content := NoContent;
        match KindOf(chartType)
        case Some(k) =>
          title := ChartTitle(k, person.value.fullName);
          content := Chart(k, person.value);
        case None =>
      } else {
        content := SelectIndividualMessage;
      }

      if template {
        var configLink := ConfigLinkShown(ctx);
        out := Templated(blockId, configLink, title, content);
      } else {
        out := Raw(content);
      }
    }

    /**
     * Save the posted chart type and individual on a save request with a valid CSRF token,
     * then return what the form shows: the stored (or default) type and individual.
     */
    method ConfigureBlock(blockId: int, ctx: Context, save: bool, csrfValid: bool,
                          postedType: Option<string>, postedPid: Option<string>,
                          isXref: string -> bool) returns (form: FormState)
      modifies this
      ensures settings == SettingsAfterConfigure(old(settings), blockId, save, csrfValid, postedType, postedPid, isXref)
      ensures form == FormState(BlockSetting(settings, blockId, "type", "pedigree"),
                                ctx.individual(BlockSetting(settings, blockId, "pid", DefaultPid(ctx))))
    {
      if save && csrfValid {
        SetBlockSetting(blockId, "type", Some(PostedType(postedType)));
        SetBlockSetting(blockId, "pid", PostedPid(postedPid, isXref));
      }
      var chartType := GetBlockSetting(blockId, "type", "pedigree");
      var pid := GetBlockSetting(blockId, "pid", DefaultPid(ctx));
      form := FormState(chartType, ctx.individual(pid));
    }
  }

  // Properties of getBlock

  /** With nothing stored and no `cfg` override, the chart is a pedigree of the default individual. */
  lemma DefaultsWhenNothingStored(settings: Settings, ctx: Context, blockId: int, cfg: map<string, string>)
    requires (blockId, "type") !in settings && (blockId, "pid") !in settings
    requires "type" !in cfg && "pid" !in cfg
    ensures RequestedType(settings, blockId, cfg) == "pedigree"
    ensures RequestedPid(settings, ctx, blockId, cfg) ==
      if ctx.signedIn && ctx.gedcomid != "" && ctx.gedcomid != "0" then ctx.gedcomid else ctx.rootId
  {
  }

  /** Only the `type` and `pid` entries of `cfg` matter, and they win over stored settings. */
  lemma OnlyTypeAndPidOverride(settings: Settings, ctx: Context, blockId: int, template: bool, cfg: map<string, string>)
    ensures var relevant := map key | key in cfg && (key == "type" || key == "pid") :: cfg[key];
      && Render(settings, ctx, blockId, template, cfg) == Render(settings, ctx, blockId, template, relevant)
      && SettingsAfterRender(settings, ctx, blockId, cfg) == SettingsAfterRender(settings, ctx, blockId, relevant)
    ensures "type" in cfg ==> RequestedType(settings, blockId, cfg) == cfg["type"]
    ensures "pid" in cfg ==> RequestedPid(settings, ctx, blockId, cfg) == cfg["pid"]
  {
    var relevant := map key | key in cfg && (key == "type" || key == "pid") :: cfg[key];
    assert RequestedType(settings, blockId, cfg) == RequestedType(settings, blockId, relevant);
    assert RequestedPid(settings, ctx, blockId, cfg) == RequestedPid(settings, ctx, blockId, relevant);
  }

  /**
   * An unresolvable individual is overwritten by the root (even an unresolvable root), no other
   * setting is written, and a resolvable one leaves the settings untouched.
   */
  lemma RenderWritesOnlyPid(settings: Settings, ctx: Context, blockId: int, cfg: map<string, string>)
    ensures var after := SettingsAfterRender(settings, ctx, blockId, cfg);
      && (ctx.individual(RequestedPid(settings, ctx, blockId, cfg)).None? ==>
            (blockId, "pid") in after && after[(blockId, "pid")] == ctx.rootId)
      && (ctx.individual(RequestedPid(settings, ctx, blockId, cfg)).Some? ==> after == settings)
      && after.Keys == settings.Keys + (if after == settings then {} else {(blockId, "pid")})
      && forall key :: key in settings && key != (blockId, "pid") ==> key in after && after[key] == settings[key]
  {
  }

  /** Without a resolvable individual, even after the fallback, the block asks to select one. */
  lemma NoIndividualShowsMessage(settings: Settings, ctx: Context, blockId: int, template: bool, cfg: map<string, string>)
    requires ctx.individual(RequestedPid(settings, ctx, blockId, cfg)).None?
    requires ctx.individual(ctx.rootId).None?
    ensures Render(settings, ctx, blockId, template, cfg).content == SelectIndividualMessage
  {
  }

  /** An unknown chart type yields empty content under the module's own title. */
  lemma UnknownTypeShowsNothing(settings: Settings, ctx: Context, blockId: int, cfg: map<string, string>)
    requires Subject(ctx, RequestedPid(settings, ctx, blockId, cfg)).Some?
    requires forall k :: KindName(k) != RequestedType(settings, blockId, cfg)
    ensures Render(settings, ctx, blockId, true, cfg).content == NoContent
    ensures Render(settings, ctx, blockId, true, cfg).title == ModuleTitle
  {
  }

  /** A known chart type with a resolved individual shows that chart of that individual. */
  lemma KnownTypeShowsChart(settings: Settings, ctx: Context, blockId: int, template: bool,
                            cfg: map<string, string>, k: ChartKind)
    requires RequestedType(settings, blockId, cfg) == KindName(k)
    requires Subject(ctx, RequestedPid(settings, ctx, blockId, cfg)).Some?
    ensures Render(settings, ctx, blockId, template, cfg).content ==
      Chart(k, Subject(ctx, RequestedPid(settings, ctx, blockId, cfg)).value)
  {
    KindNameRoundTrip(k);
  }

  /** In the template, the configuration link appears exactly for those who may edit the block. */
  lemma ConfigLinkRule(settings: Settings, ctx: Context, blockId: int, cfg: map<string, string>)
    ensures Render(settings, ctx, blockId, true, cfg).Templated?
    ensures Render(settings, ctx, blockId, true, cfg).configLink <==>
      (ctx.ctype == "gedcom" && ctx.isManager) || (ctx.ctype == "user" && ctx.signedIn)
  {
  }

  /** Without the template the content is returned as it is, with no title or link. */
  lemma RawWithoutTemplate(settings: Settings, ctx: Context, blockId: int, cfg: map<string, string>)
    ensures Render(settings, ctx, blockId, false, cfg) == Raw(Render(settings, ctx, blockId, true, cfg).content)
  {
  }

  // Properties of configureBlock

  /** Nothing is written unless it is a save request with a valid CSRF token. */
  lemma ConfigureNeedsSaveAndCsrf(settings: Settings, blockId: int, save: bool, csrfValid: bool,
                                  postedType: Option<string>, postedPid: Option<string>, isXref: string -> bool)
    requires !save || !csrfValid
    ensures SettingsAfterConfigure(settings, blockId, save, csrfValid, postedType, postedPid, isXref) == settings
  {
  }

  /**
   * A save stores a chart type from the enumeration ("pedigree" unless a valid one was posted),
   * stores the posted xref or removes the individual when none valid was posted,
   * and touches no other setting.
   */
  lemma ConfigureSave(settings: Settings, blockId: int, postedType: Option<string>,
                      postedPid: Option<string>, isXref: string -> bool)
    ensures var after := SettingsAfterConfigure(settings, blockId, true, true, postedType, postedPid, isXref);
      && (blockId, "type") in after
      && KindOf(after[(blockId, "type")]).Some?
      && (postedType.Some? && KindOf(postedType.value).Some? ==> after[(blockId, "type")] == postedType.value)
      && ((blockId, "pid") in after <==> postedPid.Some? && isXref(postedPid.value))
      && ((blockId, "pid") in after ==> after[(blockId, "pid")] == postedPid.value)
      && forall key :: key != (blockId, "type") && key != (blockId, "pid") ==>
           (key in after <==> key in settings) && (key in after ==> after[key] == settings[key])
  {
  }
  /**
   * A `cfg` pid that does not resolve replaces the stored pid with the root, even when the
   * stored pid itself resolves: the temporary override is not kept apart from the stored setting.
   */
  lemma UnresolvedCfgPidResetsStoredPid(settings: Settings, ctx: Context, blockId: int, cfg: map<string, string>)
    requires "pid" in cfg && ctx.individual(cfg["pid"]).None?
    requires (blockId, "pid") in settings && ctx.individual(settings[(blockId, "pid")]).Some?
    requires settings[(blockId, "pid")] != ctx.rootId
    ensures var after := SettingsAfterRender(settings, ctx, blockId, cfg);
      (blockId, "pid") in after && after[(blockId, "pid")] == ctx.rootId
      && after[(blockId, "pid")] != settings[(blockId, "pid")]
  {
  }
}
