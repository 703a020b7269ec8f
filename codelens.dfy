/**
 * The "Debug" code lenses: which functions of a Solidity file can be debugged
 * on their own, and the lens placed on each.
 */
module CodeLens {
  import opened SolidityAst

  /** An editor position, 0-based in both coordinates. */
  datatype Position = Position(line: nat, character: nat)

  datatype Range = Range(start: Position, end: Position)

  datatype Command = Command(
    title: string,
    tooltip: string,
    command: string,
    arguments: (ContractDefinition, FunctionDefinition))

  datatype Lens = Lens(range: Range, command: Command)

  /** What the parser produced for the document: a tree, or the exception it threw. */
  datatype ParseOutcome = Parsed(ast: SourceUnit) | ParserError(errors: seq<string>)

  const DebugCommandId: string := "simbolik.startDebugging"

  /** Only plain contracts can be deployed; interfaces, libraries and abstract contracts cannot. */
  predicate CanBeInstantiated(contract: ContractDefinition)
    ensures CanBeInstantiated(contract) <==> contract.kind !in {InterfaceKind, LibraryKind, AbstractKind}
  {
    contract.kind == ContractKind
  }

  /** A function that can be called directly on a deployed contract. */
  predicate IsExecutable(f: FunctionDefinition)
    ensures IsExecutable(f) <==>
      !f.isConstructor && !f.isVirtual && !f.isFallback && f.visibility != Internal && f.visibility != Private
  {
    if f.isConstructor then false
    else if f.isVirtual then false
    else if f.isFallback then false
    else f.visibility == External || f.visibility == Public || f.visibility == Default
  }

  /** Some constructor of the contract takes arguments, so it cannot be deployed without input. */
  predicate HasConstructorArgs(contract: ContractDefinition) {
    exists i :: 0 <= i < |contract.functions| &&
      contract.functions[i].isConstructor && |contract.functions[i].parameters| > 0
  }

  /** The whole selection rule for one (contract, function) pair. */
  predicate Debuggable(contract: ContractDefinition, f: FunctionDefinition) {
    CanBeInstantiated(contract) && !HasConstructorArgs(contract) &&
    IsExecutable(f) && |f.parameters| == 0
  }

  /** The pairs a contract's function visit adds, in order. */
  function FunctionPairs(contract: ContractDefinition, fs: seq<FunctionDefinition>)
    : seq<(ContractDefinition, FunctionDefinition)>
  {
    if fs == [] then []
    else
      var f := fs[|fs| - 1];
      FunctionPairs(contract, fs[..|fs| - 1]) +
      (if IsExecutable(f) && |f.parameters| == 0 then [(contract, f)] else [])
  }

  /** The pairs one contract contributes. */
  function ContractPairs(contract: ContractDefinition): seq<(ContractDefinition, FunctionDefinition)> {
    if CanBeInstantiated(contract) && !HasConstructorArgs(contract)
    then FunctionPairs(contract, contract.functions)
    else []
  }

  /** The pairs the whole visit collects, in traversal order. */
  function Selected(contracts: seq<ContractDefinition>): seq<(ContractDefinition, FunctionDefinition)> {
    if contracts == [] then []
    else Selected(contracts[..|contracts| - 1]) + ContractPairs(contracts[|contracts| - 1])
  }

  /** `getFunctions`: the visit over the tree, collecting pairs into one result list. */
  method GetFunctions(ast: SourceUnit) returns (results: seq<(ContractDefinition, FunctionDefinition)>)
    ensures results == Selected(ast.contracts)
  {
    var contracts := ast.contracts;
    results := [];
    var i := 0;
    while i < |contracts|
      invariant 0 <= i <= |contracts|
      invariant results == Selected(contracts[..i])
    {
      assert contracts[..i + 1] == contracts[..i] + [contracts[i]];
      SelectedSnoc(contracts[..i], contracts[i]);
      results := VisitContract(contracts[i], results);
      i := i + 1;
    }
    assert contracts[..i] == contracts;
  }

  /** The visit of one contract: skip it unless deployable, look for constructor arguments, then collect. */
  method VisitContract(contract: ContractDefinition, results: seq<(ContractDefinition, FunctionDefinition)>)
    returns (extended: seq<(ContractDefinition, FunctionDefinition)>)
    ensures extended == results + ContractPairs(contract)
  {
    extended := results;
    if !CanBeInstantiated(contract) {
      return;
    }
    var functions := contract.functions;
    var hasConstructorArgs := false;
    var j := 0;
    while j < |functions|
      invariant 0 <= j <= |functions|
      invariant hasConstructorArgs <==>
        (exists k :: 0 <= k < j && functions[k].isConstructor && |functions[k].parameters| > 0)
    {
      if functions[j].isConstructor && |functions[j].parameters| > 0 {
        hasConstructorArgs := true;
      }
      j := j + 1;
    }
    if !hasConstructorArgs {
      j := 0;
      while j < |functions|
        invariant 0 <= j <= |functions|
        invariant extended == results + FunctionPairs(contract, functions[..j])
      {
        var fn := functions[j];
        assert functions[..j + 1] == functions[..j] + [fn];
        if IsExecutable(fn) && |fn.parameters| == 0 {
          extended := extended + [(contract, fn)];
        }
        j := j + 1;
      }
      assert functions[..j] == functions;
    }
  }

  /** `locToRange`: parser lines are 1-based, editor lines 0-based; columns agree. */
  function LocToRange(loc: Location): (r: Range)
    ensures r.start.line + 1 == loc.start.line && r.end.line + 1 == loc.end.line
    ensures r.start.character == loc.start.column && r.end.character == loc.end.column
  {
    Range(Position(loc.start.line - 1, loc.start.column), Position(loc.end.line - 1, loc.end.column))
  }

  /** The lens put on one selected function. */
  function DebugLens(contract: ContractDefinition, f: FunctionDefinition): (lens: Lens)
    ensures lens.command.command == DebugCommandId && lens.command.arguments == (contract, f)
    ensures lens.range.start.line + 1 == f.loc.start.line && lens.range.end.line + 1 == f.loc.end.line
  {
    Lens(LocToRange(f.loc), Command("▷ Debug", "Start symbolic debugging", DebugCommandId, (contract, f)))
  }

  /** `provideCodeLenses`: one lens per selected pair, or none when parsing throws. */
  method ProvideCodeLenses(parsed: ParseOutcome) returns (lenses: seq<Lens>)
    ensures parsed.ParserError? ==> lenses == []
    ensures parsed.Parsed? ==>
      var pairs := Selected(parsed.ast.contracts);
      |lenses| == |pairs| &&
      forall k :: 0 <= k < |pairs| ==> lenses[k] == DebugLens(pairs[k].0, pairs[k].1)
  {
    if parsed.ParserError? {
      return [];
    }
    var functions := GetFunctions(parsed.ast);
    lenses := [];
    var k := 0;
    while k < |functions|
      invariant 0 <= k <= |functions|
      invariant |lenses| == k
      invariant forall m :: 0 <= m < k ==> lenses[m] == DebugLens(functions[m].0, functions[m].1)
    {
      var (contract, f) := functions[k];
      lenses := lenses + [DebugLens(contract, f)];
      k := k + 1;
    }
  }

  /** Every pair a function visit adds is the visited contract with one of the visited functions, executable and without parameters; and every such function is added. */
  lemma {:induction false} FunctionPairsExact(
    contract: ContractDefinition, fs: seq<FunctionDefinition>, p: (ContractDefinition, FunctionDefinition))
    ensures p in FunctionPairs(contract, fs) <==>
      p.0 == contract && p.1 in fs && IsExecutable(p.1) && |p.1.parameters| == 0
  {
    if fs != [] {
      FunctionPairsExact(contract, fs[..|fs| - 1], p);
      assert fs == fs[..|fs| - 1] + [fs[|fs| - 1]];
    }
  }

  /** One more contract adds its own pairs at the end. */
  lemma SelectedSnoc(contracts: seq<ContractDefinition>, last: ContractDefinition)
    ensures Selected(contracts + [last]) == Selected(contracts) + ContractPairs(last)
  {
    assert (contracts + [last])[..|contracts|] == contracts;
  }

  /** Appending contracts appends their pairs: selection follows traversal order. */
  lemma {:induction false} SelectedAppend(a: seq<ContractDefinition>, b: seq<ContractDefinition>)
    ensures Selected(a + b) == Selected(a) + Selected(b)
  {
    if b != [] {
      assert (a + b)[..|a + b| - 1] == a + b[..|b| - 1];
      SelectedAppend(a, b[..|b| - 1]);
    } else {
      assert a + b == a;
    }
  }

  /** A selected pair satisfies the whole rule, and every pair satisfying it is selected. */
  lemma {:induction false} SelectedExact(
    contracts: seq<ContractDefinition>, p: (ContractDefinition, FunctionDefinition))
    ensures p in Selected(contracts) <==>
      p.0 in contracts && p.1 in p.0.functions && Debuggable(p.0, p.1)
  {
    if contracts != [] {
      var init, last := contracts[..|contracts| - 1], contracts[|contracts| - 1];
      SelectedExact(init, p);
      FunctionPairsExact(last, last.functions, p);
      assert contracts == init + [last];
    }
  }

  /** A file without a deployable contract (only interfaces, libraries, abstract contracts) gets no lens. */
  lemma NoLensWithoutPlainContract(contracts: seq<ContractDefinition>)
    requires forall i :: 0 <= i < |contracts| ==> contracts[i].kind != ContractKind
    ensures Selected(contracts) == []
  {
    if Selected(contracts) != [] {
      SelectedExact(contracts, Selected(contracts)[0]);
    }
  }

  /** A contract with a constructor taking arguments contributes no lens, wherever it stands. */
  lemma ConstructorArgsBlockContract(
    before: seq<ContractDefinition>, blocked: ContractDefinition, after: seq<ContractDefinition>)
    requires HasConstructorArgs(blocked)
    ensures Selected(before + [blocked] + after) == Selected(before) + Selected(after)
  {
    SelectedAppend(before + [blocked], after);
    SelectedSnoc(before, blocked);
  }

  /** Each lens runs the debug command on its own contract and function, at the function's lines shifted to 0-based. */
  lemma DebugLensCommand(parsed: ParseOutcome, lenses: seq<Lens>, k: nat)
    requires parsed.Parsed?
    requires var pairs := Selected(parsed.ast.contracts);
      |lenses| == |pairs| && forall m :: 0 <= m < |pairs| ==> lenses[m] == DebugLens(pairs[m].0, pairs[m].1)
    requires k < |lenses|
    ensures var (c, f) := lenses[k].command.arguments;
      lenses[k].command.command == DebugCommandId &&
      c in parsed.ast.contracts && f in c.functions && Debuggable(c, f) &&
      lenses[k].range.start.line + 1 == f.loc.start.line
  {
    var pairs := Selected(parsed.ast.contracts);
    SelectedExact(parsed.ast.contracts, pairs[k]);
  }
}
