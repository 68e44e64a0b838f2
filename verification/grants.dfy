/**
 Which tools a turn may run: the context's capabilities and permissions
 (context.py), the registries (capabilities.py, tools.py) and the grant the
 tutor computes from them (tutor.py). A grant is a set of names; the order in
 which the source sorts the names is not modelled.
 */
module Grants {
  import opened Options

  const ASK_USER := "ask_user"

  const BASELINE: set<string> :=
    {"read_memory", "read_skill", "read_source", "web_search", "reason", "brainstorm"}

  /** The one configuration override the run loop parses outside its error handler. */
  datatype Setting = Unset | Number(n: int) | Unparsable

  datatype Overrides = NoOverrides | Overrides(continuations: Setting)

  /** `max(0, min(int(setting), 4))`, or None when `int` raises. */
  function MaxContinuations(o: Overrides): Option<nat> {
    match o
    case Overrides(Unparsable) => None
    case Overrides(Number(n)) => Some(if n < 0 then 0 else if n < 4 then n else 4)
    case _ => Some(2)
  }

  /** Two continuations by default, otherwise what is asked for, from none up to four. */
  lemma ContinuationLimit(o: Overrides)
    ensures MaxContinuations(o).None? <==> o.Overrides? && o.continuations.Unparsable?
    ensures MaxContinuations(o).Some? ==>
              var limit := MaxContinuations(o).value;
              && limit <= 4
              && (o.NoOverrides? || o.continuations.Unset? ==> limit == 2)
              && (o.Overrides? && o.continuations.Number? ==>
                    var n := o.continuations.n;
                    && (0 <= n <= 4 ==> limit == n) && (n < 0 ==> limit == 0) && (n > 4 ==> limit == 4))
  {
  }

  /** The authorization-relevant fields of a NativeRunContext; "" means "not selected". */
  datatype Context = Context(
    areaCapabilities: set<string>,
    globalCapabilities: set<string>,
    selected: string,
    enabledTools: Option<set<string>>,
    allowedBuiltins: Option<set<string>>,
    readable: set<string>,
    writable: set<string>,
    risks: set<string>,
    overrides: Overrides)
  {
    predicate CapabilityAvailable(id: string) {
      && (id in areaCapabilities || "*" in areaCapabilities)
      && (id in globalCapabilities || "*" in globalCapabilities)
    }

    predicate ToolEnabled(name: string) {
      && (allowedBuiltins.Some? ==> name in allowedBuiltins.value)
      && (enabledTools.Some? ==> name in enabledTools.value)
    }

    /** The child context of a resumed turn: selection and overrides are those of the paused turn. */
    function Child(selected': string, overrides': Overrides): Context {
      this.(selected := selected', overrides := overrides')
    }
  }

  /** "" in a field means that the tool does not demand it. */
  datatype ToolSpec = ToolSpec(
    requiredCapability: string,
    readResource: string,
    writeResource: string,
    risk: string)

  datatype CapabilitySpec = CapabilitySpec(ownedTools: set<string>, exclusiveTools: bool)

  datatype Registry = Registry(
    tools: map<string, ToolSpec>,
    capabilities: map<string, CapabilitySpec>,
    maxToolRounds: int)
  {
    function MaxRounds(): nat {
      if maxToolRounds < 1 then 1 else if maxToolRounds < 32 then maxToolRounds else 32
    }
  }

  predicate Covers(scope: set<string>, resource: string) {
    resource in scope || "*" in scope
  }

  /** ToolSpec.eligible: may the tool be offered at all. */
  predicate Eligible(name: string, t: ToolSpec, c: Context) {
    && (t.requiredCapability != "" ==> c.CapabilityAvailable(t.requiredCapability))
    && c.ToolEnabled(name)
    && !(t.risk == "network" && c.enabledTools.None?)
    && (t.readResource != "" ==> Covers(c.readable, t.readResource))
    && (t.writeResource != "" ==> Covers(c.writable, t.writeResource))
    && (t.risk != "" ==> Covers(c.risks, t.risk))
  }

  /** ToolSpec.execute: the checks made again when the handler is about to run. */
  predicate ExecutionAllowed(t: ToolSpec, c: Context) {
    && (t.requiredCapability != "" ==> c.CapabilityAvailable(t.requiredCapability))
    && (t.readResource != "" ==> Covers(c.readable, t.readResource))
    && (t.writeResource != "" ==> Covers(c.writable, t.writeResource))
    && (t.risk != "" ==> Covers(c.risks, t.risk))
  }

  datatype CapabilityUnavailable = CapabilityUnavailable(id: string)

  function Selected(reg: Registry, c: Context): Result<Option<CapabilitySpec>, CapabilityUnavailable> {
    if c.selected == "" then
      Ok(None)
    else if c.selected !in reg.capabilities || !c.CapabilityAvailable(c.selected) then
      Err(CapabilityUnavailable(c.selected))
    else
      Ok(Some(reg.capabilities[c.selected]))
  }

  function ComposeTools(reg: Registry, c: Context): Result<set<string>, CapabilityUnavailable> {
    match Selected(reg, c)
    case Err(e) => Err(e)
    case Ok(Some(s)) =>
      if s.exclusiveTools then
        Ok({ASK_USER} + s.ownedTools)
      else
        Ok((set x | x in BASELINE && c.ToolEnabled(x)) + {ASK_USER} + s.ownedTools)
    case Ok(None) =>
      Ok((set x | x in BASELINE && c.ToolEnabled(x)) + {ASK_USER})
  }

  function GrantedNames(reg: Registry, c: Context, candidates: set<string>): set<string> {
    set x | x in candidates && x in reg.tools && Eligible(x, reg.tools[x], c)
  }

  /** The tutor's grant; a registered `ask_user` is always part of it, eligible or not. */
  function GrantedTools(reg: Registry, c: Context): Result<set<string>, CapabilityUnavailable> {
    match ComposeTools(reg, c)
    case Err(e) => Err(e)
    case Ok(names) =>
      var granted := GrantedNames(reg, c, names);
      Ok(if ASK_USER in reg.tools then granted + {ASK_USER} else granted)
  }

  /** Is `name` in the grant that context `c` yields? */
  predicate GrantedBy(reg: Registry, c: Context, name: string) {
    var g := GrantedTools(reg, c);
    g.Ok? && name in g.value
  }

  /**
   A granted tool other than `ask_user` passes every check made at execution,
   also in the child context a resumed turn runs under: re-authorization at
   execution can refuse only what was never granted.
   */
  lemma GrantedIsExecutable(reg: Registry, c: Context, name: string, selected: string, overrides: Overrides)
    requires GrantedBy(reg, c, name) && name != ASK_USER
    ensures name in reg.tools
    ensures ExecutionAllowed(reg.tools[name], c)
    ensures ExecutionAllowed(reg.tools[name], c.Child(selected, overrides))
  {
    var names := ComposeTools(reg, c).value;
    assert name in GrantedNames(reg, c, names);
  }

  /** A grant holds `ask_user` exactly when some `ask_user` tool is registered. */
  lemma AskUserGranted(reg: Registry, c: Context)
    requires GrantedTools(reg, c).Ok?
    ensures GrantedBy(reg, c, ASK_USER) <==> ASK_USER in reg.tools
  {
  }

  /** At least one round, at most thirty-two. */
  lemma RoundLimit(reg: Registry)
    ensures 1 <= reg.MaxRounds() <= 32
    ensures 1 <= reg.maxToolRounds <= 32 ==> reg.MaxRounds() == reg.maxToolRounds
    ensures reg.maxToolRounds < 1 ==> reg.MaxRounds() == 1
    ensures reg.maxToolRounds > 32 ==> reg.MaxRounds() == 32
  {
  }

  /** Area and installation both offer the capability, by name or by wildcard. */
  predicate Offers(c: Context, id: string) {
    && (id in c.areaCapabilities || "*" in c.areaCapabilities)
    && (id in c.globalCapabilities || "*" in c.globalCapabilities)
  }

  /** Neither of the two allow lists, where there is one, leaves the tool out. */
  predicate Listed(c: Context, name: string) {
    && (c.allowedBuiltins.None? || name in c.allowedBuiltins.value)
    && (c.enabledTools.None? || name in c.enabledTools.value)
  }

  /** What a handler may start with: every right its tool demands, each by name or by wildcard. */
  lemma ExecutionAllowedIff(t: ToolSpec, c: Context)
    ensures ExecutionAllowed(t, c) <==>
              && (t.requiredCapability == "" || Offers(c, t.requiredCapability))
              && (t.readResource == "" || t.readResource in c.readable || "*" in c.readable)
              && (t.writeResource == "" || t.writeResource in c.writable || "*" in c.writable)
              && (t.risk == "" || t.risk in c.risks || "*" in c.risks)
  {
  }

  /** A grant is refused exactly if the selected capability is unknown or not offered. */
  lemma GrantRefusedIff(reg: Registry, c: Context)
    ensures GrantedTools(reg, c).Err? <==>
              c.selected != "" && !(c.selected in reg.capabilities && Offers(c, c.selected))
  {
  }

  /**
   Who is granted: `ask_user`, and the tools that the selected capability owns
   or, unless that claims to be exclusive, the baseline lists, if they are
   registered, on the allow lists, have their rights, and, for tools with
   network risk, if there is an explicit list of enabled tools.
   */
  lemma GrantedIff(reg: Registry, c: Context, name: string)
    requires GrantedTools(reg, c).Ok?
    ensures GrantedBy(reg, c, name) <==>
              && name in reg.tools
              && (|| name == ASK_USER
                  || (&& (|| (c.selected != "" && name in reg.capabilities[c.selected].ownedTools)
                          || (name in {"read_memory", "read_skill", "read_source", "web_search", "reason", "brainstorm"}
                              && (c.selected == "" || !reg.capabilities[c.selected].exclusiveTools)))
                      && Listed(c, name) && ExecutionAllowed(reg.tools[name], c)
                      && (reg.tools[name].risk == "network" ==> c.enabledTools.Some?)))
  {
    if GrantedBy(reg, c, name) && name != ASK_USER {
      assert name in GrantedNames(reg, c, ComposeTools(reg, c).value);
    }
  }
}
