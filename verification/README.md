# MOM, the Memory Overcommitment Manager, in Dafny

MOM watches a KVM host and its guests. Each entity is sampled by a
`Monitor`. A monitor asks a list of collector plugins for statistics,
merges their answers and keeps a bounded history. The `GuestManager`
keeps one monitor per running guest. Every policy interval, the
`PolicyEngine` takes a snapshot `Entity` of the host and of each guest.
It evaluates a policy written in a small s-expression language against
those snapshots, and then runs the controllers, such as KSM tuning,
that act on the variables the policy set.

This project models the deterministic core of MOM:

- the policy language: scanner, parser, variable stack, evaluator and the
  `Policy` wrapper;
- the sampling pipeline: `Monitor` and `Entity`;
- the guest registry: `GuestManager`;
- the policy engine's policy swap, controller list and control round;
- the collectors' own transformations: plugin-list parsing, counter
  deltas, the guest daemon's wire format and libvirt's statistic renaming;
- the plot writer, the KSM controller, the thread watchdog, the verbosity
  mapping, and the daemon's configuration loading and plot-directory
  numbering.

Code that updates objects in place is modelled as classes whose methods
are proved against specification functions. Pure code is modelled as
functions with lemmas. Files, sockets, libvirt, `/proc`, clocks and
plugin imports are parameters of the operations that use them: what the
call returned, or whether it failed.

Modules, one per file:

- `Wrappers` and `Dicts` (wrappers.dfy): Option, Result and picking a key.
- `Strings` (strings.dfy): Python's `split`, `join`, `strip`, `int`, `str`, `lower` and string order.
- `PolicyLexer`, `PolicyParser`, `PolicyValues`, `VariableStacks`, `PolicyEval`, `PolicyEvalProperties`, `Evaluators`, `Policies`, `PolicyExamples`: the policy language (mom/Policy).
- `Monitoring`: `Monitor` and `Entity`.
- `GuestManagers`, `PolicyEngines`, `Collectors`, `GuestNetworkDaemons`, `HostMemories`, `GuestQemuProcs`, `GuestLibvirts`, `Counters`: the registry, the engine and the collectors.
- `KsmControllers`, `Plotters`, `MomThreads`, `LogUtils`, `MomDaemon`: the KSM controller, the plotter, the watchdog, the verbosity mapping and `mom/__init__.py`.

Where MOM's files disagree with each other, the model follows the code:

- mom/Policy/TestParser.py:28-36 and 159-183 expect `#` comments and
  `{...}` blocks that mom/Policy/Parser.py does not implement. No token
  rule of mom/Policy/Parser.py:61-103 matches `#`, so a `#` is a
  lexical error. `{` and `}` scan as brackets (lines 98-100), and a
  `{...}` block parses as an ordinary list (lines 137-153). It is
  evaluated like any list, so it is rejected when its head is a list
  or a number (lines 212-222). The model does the same.
- `mom/Policy/Policy.py` imports `get_code` and `PolicyError`, which
  `mom/Policy/Parser.py` does not define. `get_code` is modelled as the
  scan-and-parse half of the module-level `eval`. Every exception is an
  error result.

## Model

| member | source | states |
|---|---|---|
| PolicyLexer.Scanner.constructor | mom/Policy/Parser.py:38-41 | a new scanner holds no tokens |
| PolicyLexer.Scanner.Tokenize | mom/Policy/Parser.py:56-103 | the loop over the token rules computes exactly `Lex(input)`; on success `rv` is the token list |
| PolicyLexer.NextLexeme | mom/Policy/Parser.py:61-103 | one scanning step consumes at least one character and never more than remain |
| PolicyLexer.Scan | mom/Policy/Parser.py:56-103 | a scan failure reports a nonempty remainder where no rule matched |
| PolicyLexer.NumberLen | mom/Policy/Parser.py:77-96 | the number rules, tried in order, cover a nonempty prefix and report its kind |
| PolicyLexer.OperatorLen | mom/Policy/Parser.py:98-103 | the operator rules cover a prefix that is an operator of the evaluator's table |
| PolicyLexer.ScanStep | mom/Policy/Parser.py:56-59 | scanning is one step followed by scanning the rest, with whitespace dropped |
| PolicyLexer.NoNumber | mom/Policy/Parser.py:77-96 | no number rule matches text that does not start like a number |
| PolicyLexer.FloatNeedsDot | mom/Policy/Parser.py:77-79 | the float rule needs a fractional part |
| PolicyLexer.NumberInteger | mom/Policy/Parser.py:81-83 | a decimal literal followed by a boundary is an integer token of exactly its length |
| PolicyLexer.NumberHex | mom/Policy/Parser.py:90-92 | a `0x` literal is a hex token of exactly its length |
| PolicyLexer.NumberOctal | mom/Policy/Parser.py:94-96 | a literal with a leading zero is an octal token of exactly its length |
| PolicyLexer.LexemeSymbol | mom/Policy/Parser.py:65-67 | a symbol name followed by a boundary scans as that symbol |
| PolicyLexer.LexemeString | mom/Policy/Parser.py:69-75 | a quoted string scans as one string token, quotes included |
| PolicyLexer.LexemeOperator | mom/Policy/Parser.py:98-103 | an operator followed by a boundary scans as that operator |
| PolicyLexer.LexemeNumber | mom/Policy/Parser.py:81-96 | an integer, hex or octal literal scans as a number token of its kind |
| PolicyLexer.NextLexemeCanonical | mom/Policy/Parser.py:61-103 | every canonical token followed by a boundary is scanned back as exactly itself |
| PolicyLexer.ScanCanonical | mom/Policy/Parser.py:56-103 | scanning at a canonical token yields it and continues after it |
| PolicyLexer.ScanBlank | mom/Policy/Parser.py:61-63 | whitespace produces no token |
| PolicyLexer.LexRender | mom/Policy/Parser.py:56-103 | round trip: canonical tokens written out with single blanks scan back unchanged |
| PolicyParser.ParseValue | mom/Policy/Parser.py:144-156 | a parsed value consumes at least one token |
| PolicyParser.ParseItems | mom/Policy/Parser.py:123-142 | a parsed list consumes its items and its closing bracket |
| PolicyParser.Parse | mom/Policy/Parser.py:114-121 | a program of the `value_list` start symbol has at least one value |
| PolicyParser.Normalize | mom/Policy/Parser.py:109-112 | forgetting the bracket kind keeps the token count |
| PolicyParser.NormalizeAppend | mom/Policy/Parser.py:109-112 | forgetting bracket kinds distributes over concatenation |
| PolicyParser.ParseValueUnparse | mom/Policy/Parser.py:144-156 | a written-out value parses back to itself, consuming exactly its tokens |
| PolicyParser.ParseItemsUnparse | mom/Policy/Parser.py:123-128 | written-out list items parse back up to the closing bracket |
| PolicyParser.ParseUnparse | mom/Policy/Parser.py:114-121 | round trip: a nonempty well-formed program parses back from its tokens |
| PolicyParser.ParseSound | mom/Policy/Parser.py:109-156 | a parsed program is well formed and stands for exactly its tokens, bracket kinds aside |
| PolicyValues.DivFloors | mom/Policy/Parser.py:345-346 | integer `/` floors: the remainder is smaller than the divisor and has its sign |
| PolicyValues.DivZero | mom/Policy/Parser.py:345-346 | division fails exactly when the divisor is zero |
| PolicyValues.ShrShl | mom/Policy/Parser.py:366-370 | shifting left then right by the same count restores the number |
| PolicyValues.ShrFloors | mom/Policy/Parser.py:369-370 | `x >> n` is the largest q with q·2ⁿ ≤ x |
| PolicyValues.NegativeShift | mom/Policy/Parser.py:366-370 | a negative shift count fails in both directions |
| PolicyValues.RepeatLength | mom/Policy/Parser.py:342-343 | `s * n` has n times the length of s, none when n ≤ 0 |
| PolicyValues.RepeatAdd | mom/Policy/Parser.py:342-343 | `s * (a + b) == s * a + s * b` for counts that are not negative |
| PolicyValues.SubAdd | mom/Policy/Parser.py:336-340 | adding then subtracting the same number gives the number back, True counting as 1 |
| PolicyValues.PyEqReflexive | mom/Policy/Parser.py:360-361 | `==` holds between a value and itself |
| PolicyValues.PyEqSymmetric | mom/Policy/Parser.py:360-364 | `==` and `!=` do not depend on operand order |
| PolicyValues.CompareFlip | mom/Policy/Parser.py:348-358 | swapping the operands flips the order |
| PolicyValues.CompareEqualIsPyEq | mom/Policy/Parser.py:348-364 | values ordered equal are exactly those `==` relates |
| PolicyValues.RelateConverse | mom/Policy/Parser.py:348-358 | `(< x y)` agrees with `(> y x)`, and `(<= x y)` with `(>= y x)` |
| PolicyValues.IntBase0ToString | mom/Policy/Parser.py:276-282 | `int(str(n), 0) == n`: a decimal literal evaluates to the number it spells |
| PolicyValues.BaseValueDecimal | mom/Policy/Parser.py:279-280 | read in base 10, a digit string has its decimal value |
| VariableStacks.VariableStack.constructor | mom/Policy/Parser.py:231-233 | a new stack has no scope |
| VariableStacks.VariableStack.EnterScope | mom/Policy/Parser.py:235-236 | pushes one empty innermost scope |
| VariableStacks.VariableStack.LeaveScope | mom/Policy/Parser.py:238-239 | pops the innermost scope |
| VariableStacks.VariableStack.Get | mom/Policy/Parser.py:241-245 | the loop finds the innermost binding, and fails exactly when no scope binds the name |
| VariableStacks.VariableStack.Set | mom/Policy/Parser.py:247-257 | with alloc, binds in the innermost scope; otherwise rebinds the nearest binding, failing when there is none; returns the value |
| VariableStacks.AssignAt | mom/Policy/Parser.py:247-257 | `set` changes exactly the innermost scope that binds the name |
| VariableStacks.AssignUnbound | mom/Policy/Parser.py:256-257 | `set` of an unbound name fails |
| VariableStacks.AssignDefinedIff | mom/Policy/Parser.py:247-257 | `set` succeeds exactly when some scope binds the name |
| VariableStacks.AssignThenLookup | mom/Policy/Parser.py:241-257 | after `set`, the name reads back the value and no other name changes |
| VariableStacks.DeclareThenLookup | mom/Policy/Parser.py:241-257 | after `set(..., alloc=True)`, the name reads back the value and no other name changes |
| VariableStacks.PushTransparent | mom/Policy/Parser.py:235-239 | entering then leaving a scope restores the stack, and an empty scope hides nothing |
| VariableStacks.DeclareInScopeEnds | mom/Policy/Parser.py:235-257 | a binding made in a scope ends with the scope |
| VariableStacks.AssignReachesOuter | mom/Policy/Parser.py:247-257 | dynamic scoping: `set` inside a scope that lacks the name rebinds the outer binding |
| PolicyEval.EvalAllStep | mom/Policy/Parser.py:184-185 | evaluating arguments is the first argument, then the rest in the state it left, stopping at an error |
| PolicyEval.ExtendExtend | mom/Policy/Parser.py:184-185 | results collected in two steps are collected in order |
| PolicyEvalProperties.EvalBalanced | mom/Policy/Parser.py:201-229 | an evaluation that succeeds leaves as many scopes as it found |
| PolicyEvalProperties.LetBalanced | mom/Policy/Parser.py:311-326 | a successful `let` pops the scope it pushed |
| PolicyEvalProperties.CallUserBalanced | mom/Policy/Parser.py:284-296 | a successful user-function call leaves the scopes as it found them |
| PolicyEvalProperties.SetVariableBalanced | mom/Policy/Parser.py:303-309 | `set` and `defvar` never add or remove a scope |
| PolicyEvalProperties.IfBalanced | mom/Policy/Parser.py:328-334 | `if` opens no scope of its own |
| PolicyEvalProperties.LetErrorKeepsScope | mom/Policy/Parser.py:316-325 | a `let` that fails after entering its scope leaves that scope on the stack |
| PolicyEvalProperties.EvalFuel | mom/Policy/Parser.py:201-229 | an evaluation that finishes within the recursion limit gives the same outcome with any larger limit |
| PolicyEvalProperties.EvalAllResults | mom/Policy/Parser.py:184-185 | successful argument evaluation gives one result per argument, in order |
| PolicyEvalProperties.EvalAllFirstError | mom/Policy/Parser.py:184-185 | a failing argument list fails at its first failing argument, after all earlier ones succeeded |
| Evaluators.Evaluator.constructor | mom/Policy/Parser.py:267-271 | a new evaluator has one empty global scope and no functions |
| Evaluators.Evaluator.Eval | mom/Policy/Parser.py:201-229 | the evaluator over its mutable stack gives exactly the result and state of the `Eval` specification |
| Evaluators.Evaluator.EvalArgs | mom/Policy/Parser.py:184-185 | the argument loop gives exactly `EvalAll`: left to right, stopping at the first error |
| Evaluators.Evaluator.Call | mom/Policy/Parser.py:212-229 | `_dispatch` over the mutable stack gives exactly the `Call` specification (operators, then special forms, then user functions) |
| Evaluators.Evaluator.ApplyBuiltin | mom/Policy/Parser.py:336-370 | an operator call over the mutable stack gives exactly `ApplyBuiltin`: every argument evaluated, then exactly two required |
| Evaluators.Evaluator.Define | mom/Policy/Parser.py:298-301 | `c_def` over the mutable stack gives exactly `Define`: the function recorded, its name returned |
| Evaluators.Evaluator.SetVariable | mom/Policy/Parser.py:303-309 | `c_set`/`c_defvar` over the mutable stack give exactly `SetVariable` |
| Evaluators.Evaluator.If | mom/Policy/Parser.py:328-334 | `c_if` over the mutable stack gives exactly `If`: the condition, then the one branch its truth selects |
| Evaluators.Evaluator.Let | mom/Policy/Parser.py:311-326 | `c_let` over the mutable stack gives exactly `Let`: pairs bound in order in one new scope, the body, the scope left only on success |
| Evaluators.Evaluator.CallUser | mom/Policy/Parser.py:284-296 | `default` over the mutable stack gives exactly `CallUser`: a `let` of the parameters to the argument expressions; unknown names and wrong arity fail |
| Evaluators.LoadCode | mom/Policy/Parser.py:372-376 | scanning then parsing a text gives `get_code`'s result |
| Evaluators.EvalString | mom/Policy/Parser.py:372-380 | the module-level `eval` scans, parses and evaluates every expression in order |
| Policies.Policy.constructor | mom/Policy/Policy.py:23-27 | a policy keeps its text, its evaluator and its parsed code |
| Policies.NewPolicy | mom/Policy/Policy.py:23-30 | a policy is made exactly when its text scans and parses, and `get_string` gives the text back |
| Policies.WithEntities | mom/Policy/Policy.py:34-35 | binding `Host` and `Guests` adds no scope and no function |
| Policies.EntitiesBound | mom/Policy/Policy.py:34-35 | `Host` and `Guests` read back the entities given, and every other name reads as before |
| Policies.Policy.Evaluate | mom/Policy/Policy.py:32-47 | the loop binds the entities, runs the program in order, and returns whether every expression succeeded |
| Policies.EvaluationKeepsScope | mom/Policy/Policy.py:26-47 | an evaluation never drops a scope or a function definition, and a successful one ends with as many scopes as it began with |
| Policies.EvaluationStopsAtFirstError | mom/Policy/Policy.py:37-46 | a failed evaluation ran every expression before the first failing one, and its final state is that failure's |
| Policies.RunAppend | mom/Policy/Policy.py:38-39 | expressions run in program order, and a failure skips the rest |
| Policies.GetCodeRender | mom/Policy/Parser.py:372-376 | a program written out as canonical tokens is the program `get_code` reads back |
| PolicyExamples.NumberExamples | mom/Policy/TestParser.py:55-74 | `00` is 0, `0xFF` is 255, `011` is 9 and `0xa` is 10 |
| PolicyExamples.OperatorExamples | mom/Policy/TestParser.py:45-74 | `(/ 11 2)` is 5, `(- 1 9)` is -8, `(>> (<< 1 4) 2)` is 4, strings concatenate and `(* 3 "Hey ")` repeats |
| PolicyExamples.CompareExamples | mom/Policy/TestParser.py:76-86 | the comparisons of `test_compare` |
| PolicyExamples.FooDesugars | mom/Policy/Parser.py:284-296 | the call `(foo a)` becomes `(let ((a a)) (+ 2 a))` |
| PolicyExamples.FooCall | mom/Policy/TestParser.py:119-126 | inside the `let`, `(foo a)` sees the `let`'s `a` and gives 3 |
| PolicyExamples.LetLeavesGlobal | mom/Policy/TestParser.py:119-126 | the `let` gives 3 and leaves the global `a` at 2 |
| PolicyExamples.LetExample | mom/Policy/TestParser.py:119-126 | the program of `test_let` gives `['foo', 2, 3, 2]` |
| PolicyExamples.ScopeCallSetter | mom/Policy/TestParser.py:142-157 | `set` in a function body changes the caller's `a` |
| PolicyExamples.ScopeCallDeclarer | mom/Policy/TestParser.py:142-157 | `defvar` in a function body binds a local `a`, and the caller's `a` is unchanged |
| PolicyExamples.ScopeShadowA | mom/Policy/TestParser.py:142-157 | `let` shadows the global `a` and leaves it as it was |
| PolicyExamples.ScopeRebindA | mom/Policy/TestParser.py:154-155 | `if` opens no scope, so the `defvar` in its branch rebinds the global `a` |
| PolicyExamples.ScopeExample | mom/Policy/TestParser.py:142-157 | the program of `test_scope` gives `[10, 'foo', 2, 2, 'foo', 4, 2, 5, 4, 5, 4, 4]` |
| Monitoring.Monitor.constructor | mom/Monitor.py:32-50 | a new monitor has no fields, variables or history, and readiness unknown (None) |
| Monitoring.Monitor.Collect | mom/Monitor.py:52-101 | fields are fixed on the first round; a fatal error stops the monitor and stores nothing; any other exception from a collector escapes with readiness, termination and history unchanged; a complete sample is stored and makes it ready; an incomplete one makes it not ready and changes no history |
| Monitoring.Monitor.Store | mom/Monitor.py:91-96 | a complete sample joins the history, keeping the last N |
| Monitoring.Monitor.Interrogate | mom/Monitor.py:103-120 | a snapshot exists exactly when the monitor is ready, with copies of properties, variables and the history |
| Monitoring.Monitor.UpdateVariables | mom/Monitor.py:122-129 | overwrites exactly the names given |
| Monitoring.Monitor.Terminate | mom/Monitor.py:131-135 | after `terminate` the monitor never runs again |
| Monitoring.Monitor.IsReady | mom/Monitor.py:137-141 | `bool(self.ready)`: not ready before the first round (None), otherwise whether the last round was complete |
| Monitoring.Monitor.ShouldRun | mom/Monitor.py:159-166 | a terminated monitor never runs; otherwise it runs exactly when MOM is running |
| Monitoring.DeclaredFields | mom/Monitor.py:66-69 | the loop computes the union of the collectors' fields |
| Monitoring.GatherRound | mom/Monitor.py:74-85 | the collector loop merges the answers in order and ends at the first fatal error |
| Monitoring.MergeInto | mom/Monitor.py:77-79 | the inner loop adds only keys not already present |
| Monitoring.UnionAllIff | mom/Monitor.py:66-72 | a field is declared exactly when some collector declares it |
| Monitoring.GatherFatalIff | mom/Monitor.py:75-85 | a round fails fatally exactly when some collector failed fatally and no earlier collector raised another exception |
| Monitoring.GatherEscapedIff | mom/Monitor.py:75-85 | an exception escapes the round exactly when some collector raised one that is neither a collection nor a fatal error, and no earlier collector failed fatally |
| Monitoring.GatherKeys | mom/Monitor.py:74-85 | the merged keys are exactly those some collector provided |
| Monitoring.GatherEarliest | mom/Monitor.py:74-79 | a key takes the value of the earliest collector that provided it |
| Monitoring.GatherKeeps | mom/Monitor.py:74-79 | a key already gathered keeps its value for the rest of the round |
| Monitoring.PushedLastN | mom/Monitor.py:91-95 | the bounded history after a push is the last N samples of the longer sequence |
| Monitoring.LastNShape | mom/Monitor.py:91-95 | the history holds at most N samples and ends with the newest |
| Monitoring.StoreKeepsConsistent | mom/Monitor.py:86-95 | storing a complete sample keeps the history equal to the last N complete samples |
| Monitoring.Entity.constructor | mom/Entity.py:12-16 | a new entity has no properties, variables or statistics |
| Monitoring.Entity.SetProperty | mom/Entity.py:18-19 | sets one property; nothing else changes |
| Monitoring.Entity.Prop | mom/Entity.py:65-69 | the property's value when it is set; a missing name is a `KeyError` |
| Monitoring.Entity.Stat | mom/Entity.py:71-79 | None exactly when there are no samples; otherwise the newest sample's value, and a `KeyError` for a name it lacks |
| Monitoring.Entity.SetVar | mom/Entity.py:92-106 | `GetVar` reads back the latest `SetVar` of a name, and other names are unchanged |
| Monitoring.Entity.SetStatistics | mom/Entity.py:24-26 | appends the rows in order |
| Monitoring.Entity.StoreVariables | mom/Entity.py:28-33 | hands every variable to the owning monitor, if there is one |
| Monitoring.Entity.Finalize | mom/Entity.py:35-43 | every statistic of the newest sample becomes an attribute; with no samples nothing changes |
| Monitoring.Entity.StatAvg | mom/Entity.py:81-90 | the accumulator loop computes the floor mean over the history, and fails on an empty history |
| Monitoring.AverageBounds | mom/Entity.py:81-90 | the floor mean lies between the smallest and the largest value |
| Monitoring.TotalBounds | mom/Entity.py:86-89 | the sum lies between n times the smallest and n times the largest value |
| GuestManagers.Spawned | mom/GuestManager.py:40-62 | listed, unwatched guests get a monitor if it starts alive; an existing entry is never replaced |
| GuestManagers.Reaped | mom/GuestManager.py:80-93 | exactly the live, listed guests remain |
| GuestManagers.Unlisted | mom/GuestManager.py:84-93 | exactly the live, unlisted guests are told to terminate |
| GuestManagers.Snapshots | mom/GuestManager.py:95-107 | the snapshots that exist, by guest id |
| GuestManagers.GuestManager.constructor | mom/GuestManager.py:30-38 | a new manager watches no guest |
| GuestManagers.GuestManager.SpawnGuestMonitors | mom/GuestManager.py:40-62 | the spawn loop computes `Spawned` |
| GuestManagers.GuestManager.CheckThreads | mom/GuestManager.py:80-93 | the reaping loop computes `Reaped` and terminates the `Unlisted` guests |
| GuestManagers.GuestManager.WaitForGuestMonitors | mom/GuestManager.py:64-78 | the registry ends empty, and every guest watched is joined |
| GuestManagers.GuestManager.Interrogate | mom/GuestManager.py:95-107 | the loop computes `Snapshots` |
| GuestManagers.GuestManager.Tick | mom/GuestManager.py:113-116 | a round with a list spawns then reaps; without a list nothing changes |
| GuestManagers.GuestManager.ActiveGuests | mom/GuestManager.py:121-130 | exactly one entry per ready guest that has a name, holding that name: no guest is repeated or left out, and the count is the number of such guests |
| GuestManagers.TickOnlyListed | mom/GuestManager.py:113-116 | after a round only listed guests are watched, and only by live monitors |
| GuestManagers.TickEmptyList | mom/GuestManager.py:113-116 | an empty guest list ends every watch |
| GuestManagers.TickKeepsLiveListed | mom/GuestManager.py:55-62 | a listed guest with a live monitor keeps that monitor |
| GuestManagers.TickStartsNew | mom/GuestManager.py:46-62 | a new listed guest is watched after a round exactly when its monitor starts alive |
| PolicyEngines.EffectiveText | mom/PolicyEngine.py:60-64 | the policy text loaded is never empty, and a nonempty policy is kept as it is |
| PolicyEngines.ReadRules | mom/PolicyEngine.py:48-58 | no file name means an empty policy; None exactly when a named file cannot be read; a nonempty result is the file's text |
| PolicyEngines.Importable | mom/PolicyEngine.py:91-103 | a controller is kept exactly when it is listed and its plugin imports |
| PolicyEngines.PolicyEngine.constructor | mom/PolicyEngine.py:28-46 | the rules file is read and loaded; an unreadable file leaves the engine unstarted with no policy |
| PolicyEngines.PolicyEngine.LoadPolicy | mom/PolicyEngine.py:60-73 | succeeds exactly when the text parses; success replaces the policy, failure keeps the old one |
| PolicyEngines.PolicyEngine.RpcSetPolicy | mom/PolicyEngine.py:75-85 | `rpc_set_policy` is `load_policy`, and `rpc_get_policy` then returns the new text |
| PolicyEngines.PolicyEngine.RpcGetPolicyAsWritten | mom/PolicyEngine.py:75-82 | as written: raises exactly when no policy was ever loaded, otherwise the policy's text |
| PolicyEngines.PolicyEngine.RpcGetPolicy | mom/PolicyEngine.py:75-82 | corrected: the policy's text, or '' when there is no policy |
| PolicyEngines.PolicyEngine.GetControllers | mom/PolicyEngine.py:87-103 | the controllers are the importable, nonblank names of the configuration, in order |
| PolicyEngines.PolicyEngine.DoControls | mom/PolicyEngine.py:105-121 | no host snapshot means nothing runs; with a host but no policy it raises; a failed evaluation runs no controller; otherwise every controller runs once, in order |
| PolicyEngines.DefaultPolicyLoads | mom/PolicyEngine.py:60-66 | a missing or empty policy always loads |
| PolicyEngines.DefaultPolicySucceeds | mom/PolicyEngine.py:105-121 | the default program evaluates without error, whatever the host and guests |
| PolicyEngines.UnparsablePolicyLeavesNone | mom/PolicyEngine.py:40-73 | a readable policy file whose text does not parse starts the engine with no policy |
| PolicyEngines.RpcGetPolicyUnbound | mom/PolicyEngine.py:75-82 | as written, `rpc_get_policy` on an engine with no policy raises; the corrected version returns '' |
| PolicyEngines.RpcGetPolicyAgrees | mom/PolicyEngine.py:75-82 | with a policy loaded, the source and the corrected version return the same text |
| Collectors.GetCollectors | mom/Collectors/Collector.py:61-81 | the loop over the comma-split list computes the all-or-nothing load |
| Collectors.NamesOf | mom/Collectors/Collector.py:68-71 | at most one plugin name per comma-separated piece |
| Collectors.LoadPartsAllOrNothing | mom/Collectors/Collector.py:72-81 | loading succeeds exactly when every listed plugin loads |
| Collectors.LoadPartsInOrder | mom/Collectors/Collector.py:72-81 | one collector per listed name, in configuration order |
| Collectors.NamesOfNonblank | mom/Collectors/Collector.py:68-71 | every name read is nonblank and starts without whitespace |
| Collectors.EmptyConfig | mom/Collectors/Collector.py:61-81 | an empty configuration loads no collectors |
| Collectors.PluginNamesJoin | mom/Collectors/Collector.py:68-71 | a list written out with commas reads back as the same names |
| GuestNetworkDaemons.Filter | mom/Collectors/GuestNetworkDaemon.py:153-158 | the reply's declared fields, with the values received |
| GuestNetworkDaemons.ParsePayload | mom/Collectors/GuestNetworkDaemon.py:148-151 | the item loop computes the payload map |
| GuestNetworkDaemons.FilterFields | mom/Collectors/GuestNetworkDaemon.py:153-158 | the field loop computes `Filter` |
| GuestNetworkDaemons.GuestNetworkDaemon.constructor | mom/Collectors/GuestNetworkDaemon.py:79-85 | a new collector is alive and not connected |
| GuestNetworkDaemons.GuestNetworkDaemon.Collect | mom/Collectors/GuestNetworkDaemon.py:126-158 | dead means `{}`; no address means dead and a collection error; a failed exchange closes the socket; otherwise the filtered reply |
| GuestNetworkDaemons.ReceivedKeys | mom/Collectors/GuestNetworkDaemon.py:153-162 | a sample never holds a key outside `getFields` |
| GuestNetworkDaemons.StatsRoundTrip | mom/Collectors/GuestNetworkDaemon.py:201-211 | round trip: the host reads back exactly the six fields the guest sent; `mem_unused` carries the guest's `mem_free` |
| GuestNetworkDaemons.LaterDuplicateWins | mom/Collectors/GuestNetworkDaemon.py:148-151 | a key sent twice is read with the later value |
| GuestNetworkDaemons.ItemRoundTrip | mom/Collectors/GuestNetworkDaemon.py:148-151 | one `key:value` item reads back as the key and value written |
| GuestNetworkDaemons.ParseItems | mom/Collectors/GuestNetworkDaemon.py:148-151 | items written from keys and values parse back as the map they were written from, later keys winning |
| HostMemories.HostMemory.constructor | mom/Collectors/HostMemory.py:14-20 | no swap counter read yet |
| HostMemories.HostMemory.Collect | mom/Collectors/HostMemory.py:28-57 | free memory includes buffers and cache; the swap figures are the changes since the previous read, 0 the first time |
| HostMemories.Advance | mom/Collectors/HostMemory.py:43-52 | one counter step: the previous value becomes the old current one, and the change is reported |
| HostMemories.AdvanceReads | mom/Collectors/HostMemory.py:43-52 | the fields always hold the last two reads |
| HostMemories.ReportFields | mom/Collectors/HostMemory.py:54-61 | the keys reported are exactly `getFields`, misspelt `mem_unuused` included |
| GuestQemuProcs.ParseStat | mom/Collectors/GuestQemuProc.py:50-55 | succeeds exactly when fields 9, 11 and 23 of the stat line are integers, and gives them |
| GuestQemuProcs.FaultStep | mom/Collectors/GuestQemuProc.py:56-63 | the first read reports 0; the read becomes the previous value |
| GuestQemuProcs.GuestQemuProc.constructor | mom/Collectors/GuestQemuProc.py:31-37 | a stat file exists exactly when the guest has a pid |
| GuestQemuProcs.GuestQemuProc.Collect | mom/Collectors/GuestQemuProc.py:43-65 | no stat file gives `{}`; a failed read is a collection error; otherwise the fault changes since the previous round and the rss |
| GuestQemuProcs.ReportFields | mom/Collectors/GuestQemuProc.py:65-68 | the keys reported are exactly `getFields` |
| GuestQemuProcs.ReadStatFields | mom/Collectors/GuestQemuProc.py:50-55 | a line whose fields 9, 11 and 23 are integers gives those integers |
| Counters.Deltas | mom/Collectors/HostMemory.py:43-52 | one reported change per read |
| Counters.DeltasSnoc | mom/Collectors/HostMemory.py:43-52 | a new read reports its change from the read before it |
| Counters.DeltasFirst | mom/Collectors/GuestQemuProc.py:56-59 | the first read reports no change |
| Counters.DeltasLater | mom/Collectors/GuestQemuProc.py:60-63 | each later read reports the counter minus the one read before |
| Counters.DeltasTelescope | mom/Collectors/GuestQemuProc.py:56-63 | the changes add up to the counter's growth since the first read |
| Counters.DeltasNonnegative | mom/Collectors/HostMemory.py:43-52 | a counter that never decreases never reports a negative change |
| GuestLibvirts.GuestLibvirt.constructor | mom/Collectors/GuestLibvirt.py:50-54 | statistics are taken to be available at first |
| GuestLibvirts.GuestLibvirt.StatsError | mom/Collectors/GuestLibvirt.py:56-63 | the error is logged only on the change from available to unavailable |
| GuestLibvirts.GuestLibvirt.Collect | mom/Collectors/GuestLibvirt.py:65-87 | no domain info is a collection error; without statistics only the domain figures, flag cleared; otherwise every statistic renamed, flag set; a missing one raises |
| GuestLibvirts.Rename | mom/Collectors/GuestLibvirt.py:81-83 | the rename loop stores each statistic under its new name, and fails exactly when one is missing |
| GuestLibvirts.MemStatsInjective | mom/Collectors/GuestLibvirt.py:42-45 | no two statistics are renamed to the same field |
| GuestLibvirts.UnavailableIncomplete | mom/Collectors/GuestLibvirt.py:42-48 | a round without statistics covers fewer keys than `getFields` |
| KsmControllers.Changes | mom/Controllers/KSM.py:25-29 | exactly the tunables whose control is set and differs from the value last written |
| KsmControllers.WriteValue | mom/Controllers/KSM.py:15-21 | corrected `write_value`: written exactly when the file opens, otherwise a warning |
| KsmControllers.Ksm.constructor | mom/Controllers/KSM.py:11-13 | every tunable starts at '0' |
| KsmControllers.Ksm.Process | mom/Controllers/KSM.py:23-39 | writes exactly `Changes`, each once, and records them in `cur` |
| KsmControllers.FindChanges | mom/Controllers/KSM.py:25-29 | the first loop computes `Changes` and the updated `cur` |
| KsmControllers.WriteAll | mom/Controllers/KSM.py:37-39 | each output written once; those whose file would not open are reported |
| KsmControllers.ProcessKeepsTunables | mom/Controllers/KSM.py:23-39 | a round never adds or drops a tunable |
| KsmControllers.ProcessIdempotent | mom/Controllers/KSM.py:25-29 | a second round with the same controls writes nothing |
| KsmControllers.WriteValueUnbound | mom/Controllers/KSM.py:15-21 | as written, a file that cannot be opened makes `write_value` raise |
| KsmControllers.WriteValueAgrees | mom/Controllers/KSM.py:15-21 | the corrected `write_value` agrees with the source whenever the file opens |
| KsmControllers.WriteValueAsWritten | mom/Controllers/KSM.py:15-21 | as written: succeeds exactly when the file opens, and raises otherwise |
| KsmControllers.Ksm.ProcessAsWritten | mom/Controllers/KSM.py:23-39 | as written: `cur` records every change, the round raises exactly when some changed tunable's file cannot be opened, and then fewer than all changes were written |
| KsmControllers.WriteAllAsWritten | mom/Controllers/KSM.py:37-39 | as written: outputs are written until a file cannot be opened; it raises exactly when some output's file cannot be opened |
| KsmControllers.ProcessStopsAtFailure | mom/Controllers/KSM.py:15-39 | the source raises in a round exactly when the corrected round reports a file it could not open |
| KsmControllers.ProcessAsWrittenRaises | mom/Controllers/KSM.py:23-39 | switching KSM on (`ksm_run` set to 1) while its sysfs files cannot be opened makes the round raise as written |
| Plotters.Values | mom/Plotter.py:49-51 | the plotted values in key order, as `str` spells them |
| Plotters.Header | mom/Plotter.py:42 | the header starts with `# time`, names the fields joined by a tab and a blank, and ends the line |
| Plotters.Line | mom/Plotter.py:49-53 | every line ends with a newline; a complete sample starts with the time and a tab; an incomplete one is the `Incomplete data set` comment |
| Plotters.Plotter.constructor | mom/Plotter.py:22-31 | a file exists only with a plot directory that can be opened |
| Plotters.Plotter.SetFields | mom/Plotter.py:37-43 | stores the sorted fields and writes the header naming them |
| Plotters.Plotter.Plot | mom/Plotter.py:45-55 | one line per sample; no file writes nothing; before `setFields` it raises |
| Plotters.SortFields | mom/Plotter.py:40-41 | every field once, in ascending order |
| Plotters.KeysDetermined | mom/Plotter.py:40-41 | the header depends only on the set of fields |
| Plotters.RowRoundTrip | mom/Plotter.py:49-51 | round trip: a row split on tabs gives the time and each field's value |
| Plotters.ExtraFieldsIgnored | mom/Plotter.py:49-51 | fields that are not plotted do not change the line |
| Plotters.IncompleteIsComment | mom/Plotter.py:52-55 | a sample missing a plotted field writes the comment line, never a partial row |
| MomThreads.MomThread.constructor | mom/MomThread.py:7-10 | the completion time starts at the creation time |
| MomThreads.MomThread.IntervalComplete | mom/MomThread.py:12-16 | the time recorded is the time read back |
| MomThreads.MomThread.CheckThread | mom/MomThread.py:26-40 | true exactly when the thread is alive and its last interval completed at most ten intervals ago |
| MomThreads.Assess | mom/MomThread.py:26-40 | a dead thread has quit; a live one silent for more than ten intervals is unresponsive; a responsive one has been silent for at most five |
| MomThreads.VerdictIff | mom/MomThread.py:26-40 | a thread passes exactly when it is alive and silent for at most ten intervals |
| MomThreads.StalledIff | mom/MomThread.py:35-40 | the stall warning is for more than five and at most ten intervals |
| MomThreads.VerdictEarlier | mom/MomThread.py:30-40 | judged earlier, a passing thread would have passed too |
| MomThreads.JustCompletedPasses | mom/MomThread.py:26-40 | a live thread that has just completed an interval passes |
| LogUtils.SpellingsSelect | mom/LogUtils.py:19-33 | each level is chosen by its digit and by its name |
| LogUtils.UnrecognisedIsDebug | mom/LogUtils.py:30-31 | any other string selects debug |
| LogUtils.UppercaseIsDebug | mom/LogUtils.py:19-31 | matching is case-sensitive |
| LogUtils.SpellingsDistinct | mom/LogUtils.py:20-29 | the spellings are distinct, so the order of the tests does not matter |
| LogUtils.LogSetVerbosity | mom/LogUtils.py:19-33 | a level's digit or name selects that level, and any level other than debug was selected by one of its spellings |
| MomDaemon.MatchNum | mom/__init__.py:142-147 | a matching name carries a number below 1000 |
| MomDaemon.MaxSeq | mom/__init__.py:136-149 | the largest number among matching names, -1 when none matches |
| MomDaemon.NextSeqNum | mom/__init__.py:136-149 | the listing loop gives one past the highest number |
| MomDaemon.GetPlotSubdir | mom/__init__.py:127-160 | the corrected `_get_plot_subdir`, with warnings in place of the failures |
| MomDaemon.PlotSubdirEmptyIff | mom/__init__.py:127-160 | '' exactly for an empty base directory, a listing failure, a number above 999 or a mkdir failure |
| MomDaemon.NewSubdirIsFresh | mom/__init__.py:136-155 | a new plot directory never reuses a listed name, and its number is above every listed one |
| MomDaemon.SubdirMatches | mom/__init__.py:150-152 | the directory created carries the number it was created for |
| MomDaemon.Pad3Value | mom/__init__.py:150-152 | `'%03d'` spells the number back |
| MomDaemon.FirstSubdir | mom/__init__.py:136-155 | an empty directory gives `momplot-000` |
| MomDaemon.PlotSubdirRaises | mom/__init__.py:127-160 | as written, a base directory that cannot be listed makes the constructor raise |
| MomDaemon.PlotSubdirAgrees | mom/__init__.py:127-160 | where the source does not raise, it returns what the corrected version does |
| MomDaemon.SetItems | mom/__init__.py:92-94 | the item loop applies one section's overrides |
| MomDaemon.ApplyOverrides | mom/__init__.py:89-94 | the section loop applies the overrides, skipping sections the configuration lacks |
| MomDaemon.OverrideSections | mom/__init__.py:89-94 | overrides add no section, win within existing ones, and leave every other option |
| MomDaemon.ReadKeeps | mom/__init__.py:85 | reading a file keeps every option already present and adds the file's, the file's value winning |
| MomDaemon.ReadNothing | mom/__init__.py:85 | a missing file changes nothing |
| MomDaemon.LoadConfig | mom/__init__.py:57-103 | defaults, then the file, then the overrides, then the internal section |
| MomDaemon.LoadOver | mom/__init__.py:85-103 | the steps after the defaults compute the loaded configuration |
| MomDaemon.DefaultsShape | mom/__init__.py:61-82 | the defaults hold every option MOM reads, with no plot directory, verbosity `info` and no internal section |
| MomDaemon.CustomizedKeeps | mom/__init__.py:85-94 | customising keeps every default section and option |
| MomDaemon.LoadedShape | mom/__init__.py:98-103 | every default option survives loading, and the internal section says MOM is not yet running, whatever the file says |
| MomDaemon.NothingCustomised | mom/__init__.py:57-103 | with no file and no overrides, the defaults plus an internal section with no plots |
| MomDaemon.ThreadsOk | mom/__init__.py:162-170 | true exactly when every thread is alive; otherwise the first that has exited |
| MomDaemon.Mom.constructor | mom/__init__.py:15-17 | loads the configuration, then sets the log level it names |
| MomDaemon.Mom.Shutdown | mom/__init__.py:54-55 | `running` is set to '0' |
| MomDaemon.Mom.Watch | mom/__init__.py:37-45 | a dead thread or a dead RPC server stops the main loop |
| MomDaemon.VerbosityAnyCase | mom/__init__.py:111-112 | the verbosity is lowered first, so capitalised names select their level |
| MomDaemon.StoppedIdempotent | mom/__init__.py:54-55 | stopping twice is stopping once |
| MomDaemon.Read | mom/__init__.py:85 | the sections are those of both; each section's options are those of both |
| MomDaemon.Override | mom/__init__.py:89-94 | no section is added; each section's options are its own plus those overridden |
| MomDaemon.PlotSubdir | mom/__init__.py:127-160 | a new plot directory lies in the base directory, carries one past the highest listed number, and is not among the listed names |
| MomDaemon.PlotSubdirAsWritten | mom/__init__.py:127-160 | as written: raises exactly on the paths that log a warning, and gives '' exactly when there is no base directory |
| Strings.Split | mom/Collectors/Collector.py:68 | `split` gives at least one piece, none holding the separator |
| Strings.JoinSplit | mom/Collectors/Collector.py:68 | joining the pieces of a split gives the string back |
| Strings.SplitJoin | mom/Collectors/GuestNetworkDaemon.py:148-151 | splitting a join of separator-free pieces gives the pieces back |
| Strings.LStrip | mom/Collectors/Collector.py:69 | `lstrip` removes exactly the leading whitespace |
| Strings.WordsJoin | mom/Collectors/GuestQemuProc.py:51 | words separated by single blanks split back into those words |
| Strings.ParseIntToString | mom/Collectors/GuestNetworkDaemon.py:150 | `int('%i' % n) == n` |
| Strings.ParseIntBlankAfterSign | mom/Collectors/GuestNetworkDaemon.py:150 | Python 2's `int` accepts blanks between the sign and the digits |
| Strings.InsertSorted | mom/Plotter.py:40-41 | insertion keeps a list ascending and adds exactly one element |
| Strings.SortedUnique | mom/Plotter.py:40-41 | two ascending lists of the same strings are equal |
| Strings.LtTransitive | mom/Plotter.py:40-41 | Python's string order is transitive |
| Strings.LtTotal | mom/Plotter.py:40-41 | any two different strings are ordered one way or the other |
| Strings.Lower | mom/__init__.py:111 | `lower` maps each ASCII capital to its small letter and keeps everything else |
| Strings.LowerIdempotent | mom/__init__.py:111 | a lowered string has no capital left |

## Left out

- Floating point: the float and exponent literals scan, but evaluating them is an error; float division; `StatAvg`'s conversion to float. The result of `StatAvg` is the floor mean as an integer.
- Ordering of values of different types follows Python 2's type-name rule. Ordering entity objects is not modelled.
- The spark `GenericScanner` and `GenericParser` base classes are not part of this model. The scanner and parser are written to the token rules and grammar of mom/Policy/Parser.py: at each position the first rule that matches wins, in rule order (for numbers: float, integer, integer with exponent, hex, octal). The user-operator rule covers the evaluator's operator table.
- `#` comments and `{...}` blocks as mom/Policy/TestParser.py expects them: mom/Policy/Parser.py has no rule for either, so the model has none.
- `parse_doc`: the signatures it reads from the built-ins' doc strings are fixed in each special form.
- The interpreter's recursion limit is a `fuel` bound. Running out is an error result, like Python's `RuntimeError`.
- The REPL and the file-reading `__main__` of mom/Policy/Parser.py.
- Threads, semaphores, sleeps and joins. Every model is sequential. `run` loops appear as one round: `GuestManager.Tick`, `Mom.Watch` and `PolicyEngine.DoControls`.
- The `GuestMonitor` and `HostMonitor` subclasses, and the monitor constructor call in `spawn_guest_monitors`. A new monitor is an input that says whether it started alive.
- What controllers do to the host: `process` is recorded as invoked, in order. Only the KSM controller is modelled.
- Entity attributes set through `setattr`: `_finalize` adds them to a map.
- Time is an integer given to the operations that read the clock.
- Loggers and their output. `stats_error` returns whether it logged.
- The socket helpers, `connect` and the `_Server` loop of the guest network daemon. `get_guest_ip` is replaced by an optional address.
- `parse_int` and `open_datafile` in mom/Collectors/Collector.py. The integers they produce are inputs.
- `ConfigParser` file syntax: a configuration is a map from section to a map from option to string.
- `getint` on `running`: only the strings '0' and '1' are written.
- The RPC server's liveness is a boolean input of `Mom.Watch`.
- Plugin import is a function saying whether a name imports.
- Monitoring.Entity.StatAvg: returns the floor mean as an integer, without the final float conversion.
- Monitoring.Monitor.Collect: the plotter call is left out, because its effect is only on the plot file.
- PolicyEngines.PolicyEngine.RpcGetPolicyAsWritten: the raise happens after `policy_sem.acquire()` (mom/PolicyEngine.py:76), so the semaphore also stays held; semaphores are not modelled.
- KsmControllers.Ksm.Process: mom/Entity.py defines no `GetControl`, so as written `process` raises `AttributeError` at mom/Controllers/KSM.py:26 on its first tunable. The model instead takes the host's control values as an input function (`Controls`), which is what a `GetControl` reading the policy's `ksm_` controls would give. `Process` also writes through the corrected `WriteValue`, so a sysfs file that cannot be opened is only reported and the round goes on. As written (mom/Controllers/KSM.py:15-21, called in the loop at lines 37-39), `write_value` raises there: the remaining outputs go unwritten while `cur` already records them (line 29). `ProcessAsWritten` and `ProcessStopsAtFailure` model that round.

## Findings

| source | as written | input that shows it | evidently intended | confidence | as-written member | corrected member |
|---|---|---|---|---|---|---|
| mom/Controllers/KSM.py:15-21 | when `open` fails, the handler logs a warning, then `file.close()` runs on a name never bound and raises | a sysfs file that cannot be opened | log the warning and carry on | not executed | KsmControllers.WriteValueUnbound | KsmControllers.WriteValue |
| mom/__init__.py:127-160 | `_get_plot_subdir` is called from `_load_config` (line 16) before `self.logger` is set (line 17), so each warning path raises `AttributeError` | plot-dir `/var/lib/mom` whose listing fails | log the warning and return '' | not executed | MomDaemon.PlotSubdirRaises | MomDaemon.PlotSubdirEmptyIff |
| mom/PolicyEngine.py:28-82 | `self.policy` is assigned only by a `load_policy` that succeeds (line 71), yet `rpc_get_policy` tests it against None (line 77); an engine whose first policy text did not parse has no `policy` attribute, so `rpc_get_policy` raises `AttributeError` | a readable policy file holding `( + 1` | set `self.policy` to None in `__init__`, so that `rpc_get_policy` returns '' | not executed | PolicyEngines.RpcGetPolicyUnbound | PolicyEngines.PolicyEngine.RpcGetPolicy |
