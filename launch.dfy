/**
 * Starting a debug session for one function: the method signature and
 * session name built from the syntax tree, the RPC address, the launch
 * configuration, and the order in which `startDebugging` gives up.
 */
module Launch {
  import opened Wrappers
  import opened Strings
  import opened Config
  import opened SolidityAst
  import CodeLens

  /**
   * The `flatMap` over the parameters: a parameter contributes its type
   * name when that is a string, and nothing when its type name is null,
   * has no `name`, or has a `name` that is not a string.
   */
  function ParameterTypes(parameters: seq<Parameter>): (types: seq<string>)
    ensures |types| <= |parameters|
  {
    if parameters == [] then []
    else
      var p := parameters[|parameters| - 1];
      ParameterTypes(parameters[..|parameters| - 1]) +
      (match p.typeName
       case None => []
       case Some(t) =>
         match t.name
         case None => []
         case Some(StringName(s)) => [s]
         case Some(NonStringName) => [])
  }

  /** The parameter kept by the `flatMap`, if any. */
  function KeptType(p: Parameter): Option<string> {
    if p.typeName.Some? && p.typeName.value.name.Some? && p.typeName.value.name.value.StringName?
    then Some(p.typeName.value.name.value.value)
    else None
  }

  /** The `flatMap` keeps parameter order: types of later parameters come later. */
  lemma {:induction false} ParameterTypesAppend(a: seq<Parameter>, b: seq<Parameter>)
    ensures ParameterTypes(a + b) == ParameterTypes(a) + ParameterTypes(b)
  {
    if b == [] {
      assert a + b == a;
    } else {
      assert (a + b)[..|a + b| - 1] == a + b[..|b| - 1];
      ParameterTypesAppend(a, b[..|b| - 1]);
    }
  }

  /** A type name appears exactly when some parameter has it as a string `name`. */
  lemma {:induction false} ParameterTypesExact(parameters: seq<Parameter>, s: string)
    ensures s in ParameterTypes(parameters) <==>
      exists i :: 0 <= i < |parameters| && KeptType(parameters[i]) == Some(s)
  {
    if parameters != [] {
      var init := parameters[..|parameters| - 1];
      ParameterTypesExact(init, s);
      assert forall i :: 0 <= i < |init| ==> init[i] == parameters[i];
    }
  }

  /** When every parameter has a string type name, none is dropped and each keeps its place. */
  lemma {:induction false} ParameterTypesAllKept(parameters: seq<Parameter>)
    requires forall i :: 0 <= i < |parameters| ==> KeptType(parameters[i]).Some?
    ensures |ParameterTypes(parameters)| == |parameters|
    ensures forall i :: 0 <= i < |parameters| ==>
      ParameterTypes(parameters)[i] == KeptType(parameters[i]).value
  {
    if parameters != [] {
      ParameterTypesAllKept(parameters[..|parameters| - 1]);
    }
  }

  /** How a template string renders a possibly-null name. */
  function NameText(name: Option<string>): string {
    match name
    case Some(n) => n
    case None => "null"
  }

  /** `name(type1,type2,...)` */
  function MethodSignature(f: FunctionDefinition): (signature: string)
    ensures var name := NameText(f.name);
      && |signature| >= |name| + 2
      && signature[..|name|] == name && signature[|name|] == '(' && signature[|signature| - 1] == ')'
  {
    NameText(f.name) + "(" + Join(ParameterTypes(f.parameters), ',') + ")"
  }

  /** `Contract.name(types)` */
  function DebugConfigName(contractName: string, methodSignature: string): (name: string)
    ensures |name| == |contractName| + 1 + |methodSignature|
    ensures name[..|contractName|] == contractName && name[|contractName|] == '.'
    ensures name[|contractName| + 1..] == methodSignature
  {
    contractName + "." + methodSignature
  }

  /** A contract name has no `.`, so the session name splits back at its first `.`. */
  lemma DebugConfigNameRoundTrip(contractName: string, methodSignature: string)
    requires '.' !in contractName
    ensures var name := DebugConfigName(contractName, methodSignature);
      && '.' in name
      && var dot := FirstIndex(name, '.');
      && name[..dot] == contractName && name[dot + 1..] == methodSignature
  {
    var name := DebugConfigName(contractName, methodSignature);
    assert name[|contractName|] == '.';
  }

  /** The local node's address for the configured port. */
  function RpcUrl(anvilPort: ConfigValue): (url: string)
    ensures EndsWith(url, Display(anvilPort))
    ensures |url| >= |LocalhostPrefix| && url[..|LocalhostPrefix|] == LocalhostPrefix
  {
    LocalhostPrefix + Display(anvilPort)
  }

  const LocalhostPrefix: string := "http://localhost:"

  /**
   * Reading a signature back: the name before the first `(`, then the
   * comma-separated types up to the final `)`.
   */
  function ParseSignature(signature: string): Option<(string, seq<string>)> {
    if |signature| < 2 || signature[|signature| - 1] != ')' || '(' !in signature then None
    else
      var open := FirstIndex(signature, '(');
      if open >= |signature| - 1 then None
      else
        var inner := signature[open + 1..|signature| - 1];
        Some((signature[..open], if inner == "" then [] else Split(inner, ',')))
  }

  function FirstIndex(s: string, c: char): (i: nat)
    requires c in s
    ensures i < |s| && s[i] == c && c !in s[..i]
  {
    if s[0] == c then 0 else 1 + FirstIndex(s[1..], c)
  }

  /** A type name that survives being written into a signature and read back. */
  predicate PlainTypeName(t: string) {
    t != "" && ',' !in t && '(' !in t && ')' !in t
  }

  /**
   * The signature determines the function's name and its kept parameter
   * types, so distinct functions of a contract get distinct session names.
   */
  lemma SignatureRoundTrip(f: FunctionDefinition)
    requires '(' !in NameText(f.name)
    requires forall t :: t in ParameterTypes(f.parameters) ==> PlainTypeName(t)
    ensures ParseSignature(MethodSignature(f)) == Some((NameText(f.name), ParameterTypes(f.parameters)))
  {
    var name, types := NameText(f.name), ParameterTypes(f.parameters);
    var inner := Join(types, ',');
    var sig := MethodSignature(f);
    assert sig == name + "(" + inner + ")";
    assert sig[|name|] == '(';
    var open := FirstIndex(sig, '(');
    assert sig[..|name|] == name;
    assert open == |name|;
    assert sig[open + 1..|sig| - 1] == inner;
    if types == [] {
      assert inner == "";
    } else {
      assert forall i :: 0 <= i < |types| ==> types[i] in types;
      JoinPrefix(types, ',');
      SplitJoin(types, ',');
    }
  }

  /** A join of pieces whose first is non-empty is non-empty. */
  lemma JoinPrefix(parts: seq<string>, sep: char)
    requires |parts| >= 1 && parts[0] != ""
    ensures Join(parts, sep) != ""
  {
    if |parts| > 1 {
      assert Join(parts, sep)[0] == parts[0][0];
    }
  }

  /** A function that got a debug lens has no parameters, so its signature is `name()`. */
  lemma LensedSignature(contracts: seq<ContractDefinition>, c: ContractDefinition, f: FunctionDefinition)
    requires (c, f) in CodeLens.Selected(contracts)
    ensures MethodSignature(f) == NameText(f.name) + "()"
    ensures DebugConfigName(c.name, MethodSignature(f)) == c.name + "." + NameText(f.name) + "()"
  {
    CodeLens.SelectedExact(contracts, (c, f));
    assert f.parameters == [];
  }

  /** The launch configuration handed to the editor's debugger. */
  datatype DebugConfig = DebugConfig(
    name: string,
    configType: string,
    request: string,
    file: string,
    contractName: string,
    methodSignature: string,
    stopAtFirstOpcode: ConfigValue,
    showSourcemaps: ConfigValue,
    rpcUrl: string,
    buildInfo: seq<string>,
    clientMount: string)

  /** `debugConfig(...)`: a `solidity` launch request carrying its arguments as given. */
  function MakeDebugConfig(
    name: string, file: string, contractName: string, methodSignature: string,
    stopAtFirstOpcode: ConfigValue, showSourcemaps: ConfigValue, rpcUrl: string,
    buildInfo: seq<string>, clientMount: string): (c: DebugConfig)
    ensures c.configType == "solidity" && c.request == "launch"
    ensures c.name == name && c.file == file && c.contractName == contractName
    ensures c.methodSignature == methodSignature && c.rpcUrl == rpcUrl
    ensures c.stopAtFirstOpcode == stopAtFirstOpcode && c.showSourcemaps == showSourcemaps
    ensures c.buildInfo == buildInfo && c.clientMount == clientMount
  {
    DebugConfig(name, "solidity", "launch", file, contractName, methodSignature,
      stopAtFirstOpcode, showSourcemaps, rpcUrl, buildInfo, clientMount)
  }

  /** What the editor and the build tooling answer while `startDebugging` runs. */
  datatype Environment = Environment(
    activeDocument: Option<string>,  // URI of the active editor's document, if there is one
    buildSucceeds: bool,
    inWorkspaceFolder: bool,
    foundryRoot: string,
    buildInfo: seq<string>)

  /** How the command ends. */
  datatype Outcome =
    | Threw(message: string)
    | BuildFailed
    | Started(config: DebugConfig)

  /** The command's effects: whether the local node was restarted first, and how it ended. */
  datatype Run = Run(restartedAnvil: bool, outcome: Outcome)

  /** `startDebugging(contract, method)` */
  function StartDebugging(
    settings: Settings, contract: ContractDefinition, fn: FunctionDefinition, env: Environment): (r: Run)
    ensures r.restartedAnvil == Truthy(GetConfigValue(settings, "anvil-autostart", Flag(true)))
    ensures r.outcome.BuildFailed? <==>
      env.activeDocument.Some? && Truthy(GetConfigValue(settings, "autobuild", Flag(true))) && !env.buildSucceeds
    ensures r.outcome.Started? <==>
      env.activeDocument.Some? && env.inWorkspaceFolder &&
      (env.buildSucceeds || !Truthy(GetConfigValue(settings, "autobuild", Flag(true))))
    ensures r.outcome.Started? ==>
      var c := r.outcome.config;
      && c.configType == "solidity" && c.request == "launch"
      && c.name == contract.name + "." + MethodSignature(fn)
      && c.methodSignature == MethodSignature(fn)
      && c.file == env.activeDocument.value
      && c.rpcUrl == RpcUrl(GetConfigValue(settings, "anvil-port", Str("8545")))
      && c.clientMount == env.foundryRoot && c.buildInfo == env.buildInfo
  {
    var restart := Truthy(GetConfigValue(settings, "anvil-autostart", Flag(true)));
    if env.activeDocument.None? then Run(restart, Threw("No active text editor."))
    else if Truthy(GetConfigValue(settings, "autobuild", Flag(true))) && !env.buildSucceeds then Run(restart, BuildFailed)
    else if !env.inWorkspaceFolder then Run(restart, Threw("No workspace folder."))
    else
      var methodSignature := MethodSignature(fn);
      var config := MakeDebugConfig(
        DebugConfigName(contract.name, methodSignature),
        env.activeDocument.value,
        contract.name,
        methodSignature,
        GetConfigValue(settings, "stop-at-first-opcode", Flag(false)),
        GetConfigValue(settings, "show-sourcemaps", Flag(false)),
        RpcUrl(GetConfigValue(settings, "anvil-port", Str("8545"))),
        env.buildInfo,
        env.foundryRoot);
      Run(restart, Started(config))
  }

  /** With no port configured, sessions talk to the node at `http://localhost:8545`. */
  lemma DefaultRpcUrl(settings: Settings)
    requires SettingId("anvil-port") !in settings
    ensures RpcUrl(GetConfigValue(settings, "anvil-port", Str("8545"))) == "http://localhost:8545"
  {
  }
}
