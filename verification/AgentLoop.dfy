// S03.50's bounded agent loop over a workspace, and S03.60's check of what it changed.

module AgentLoop {
  import opened Results

  // ---- Paths -------------------------------------------------------------------------------------------

  // A path is its components. A file's key is the absolute, normalised one.
  type Path = seq<string>
  type Files = map<Path, string>

  // `.` and empty components vanish and `..` removes the component before it, if any.
  function Normal(p: Path): Path {
    if |p| == 0 then [] else
    var before, last := Normal(p[..|p| - 1]), p[|p| - 1];
    if last == "." || last == "" then before
    else if last == ".." then if |before| == 0 then [] else before[..|before| - 1]
    else before + [last]
  }

  predicate Plain(p: Path) {
    forall i :: 0 <= i < |p| ==> p[i] != "." && p[i] != "" && p[i] != ".."
  }

  lemma {:induction false} NormalIsPlain(p: Path)
    ensures Plain(Normal(p))
    ensures Plain(p) ==> Normal(p) == p
  {
    if |p| > 0 {
      NormalIsPlain(p[..|p| - 1]);
    }
  }

  function Target(root: Path, p: Path): Path { Normal(root + p) }

  predicate Inside(root: Path, target: Path) { root <= target }

  function Relative(root: Path, target: Path): Path
    requires Inside(root, target)
  {
    target[|root|..]
  }

  // Where an allowed path leads, when it stays inside the workspace. The root itself is a directory: a path
  // such as `.` that leads there cannot be written.
  predicate LeadsTo(root: Path, allowed: set<Path>, target: Path) {
    Inside(root, target) && target != root && exists p :: p in allowed && Target(root, p) == target
  }

  // ---- The loop ------------------------------------------------------------------------------------------

  // What one tool call asks for. A write the operating system refuses changes nothing; the one authorised
  // command may leave the workspace in any state.
  datatype Tool =
    | Done
    | ReadFile(path: Option<Path>)
    | WriteFile(path: Option<Path>, content: Option<string>, refused: bool)
    | RunCommand(after: Files)
    | Unknown

  datatype Reply = Reply(tokensIn: nat, tokensOut: nat, call: Option<Tool>)
  datatype Kind = KDone | KRead | KWrite | KCommand
  datatype Record = Record(step: nat, kind: Kind)
  datatype Reason = SaidDone | InvalidToolCall | UnknownTool | BudgetExhausted

  datatype LoopResult = LoopResult(records: seq<Record>, tokensIn: nat, tokensOut: nat, reason: Reason)

  predicate MayWrite(root: Path, allowed: set<Path>, t: Tool)
    requires t.WriteFile?
  {
    t.path.Some? && t.path.value in allowed && t.content.Some? &&
    Inside(root, Target(root, t.path.value)) && Target(root, t.path.value) != root && !t.refused
  }

  function Apply(root: Path, allowed: set<Path>, command: bool, files: Files, t: Tool): Files {
    match t
    case WriteFile(p, content, _) => if MayWrite(root, allowed, t) then files[Target(root, p.value) := content.value] else files
    case RunCommand(after) => if command then after else files
    case _ => files
  }

  function KindOf(t: Tool): Option<Kind> {
    match t
    case Done => Some(KDone)
    case ReadFile(_) => Some(KRead)
    case WriteFile(_, _, _) => Some(KWrite)
    case RunCommand(_) => Some(KCommand)
    case Unknown => None
  }

  // The replies of the model, one per step.
  type Model = nat -> Reply

  predicate Stops(r: Reply) { r.call.None? || r.call.value.Done? || r.call.value.Unknown? }

  // No reply before step n ended the loop.
  predicate Goes(model: Model, n: nat) {
    forall k: nat :: 1 <= k < n ==> !Stops(model(k))
  }

  function SumIn(model: Model, calls: nat): nat { if calls == 0 then 0 else SumIn(model, calls - 1) + model(calls).tokensIn }
  function SumOut(model: Model, calls: nat): nat { if calls == 0 then 0 else SumOut(model, calls - 1) + model(calls).tokensOut }

  // The workspace after the first n tool calls.
  function After(root: Path, allowed: set<Path>, command: bool, model: Model, files: Files, n: nat): Files {
    if n == 0 then files else
    var before := After(root, allowed, command, model, files, n - 1);
    if model(n).call.None? then before else Apply(root, allowed, command, before, model(n).call.value)
  }

  // `calls` is how often the model was asked.
  method RunAgentLoop(root: Path, allowed: set<Path>, command: bool, model: Model, files: Files, maxSteps: nat)
    returns (r: LoopResult, workspace: Files, calls: nat)
    ensures calls <= maxSteps
    ensures Goes(model, calls) && (r.reason != BudgetExhausted <==> calls > 0 && Stops(model(calls)))
    ensures r.reason == BudgetExhausted ==> calls == maxSteps
    ensures r.tokensIn == SumIn(model, calls) && r.tokensOut == SumOut(model, calls)
    ensures workspace == After(root, allowed, command, model, files, calls)
    ensures |r.records| == if r.reason == InvalidToolCall || r.reason == UnknownTool then calls - 1 else calls
    ensures forall i :: 0 <= i < |r.records| ==>
              r.records[i].step == i + 1 && model(i + 1).call.Some? && Some(r.records[i].kind) == KindOf(model(i + 1).call.value)
    ensures r.reason == SaidDone <==> calls > 0 && model(calls).call == Some(Done)
    ensures r.reason == InvalidToolCall <==> calls > 0 && model(calls).call == None
  {
    workspace, calls := files, 0;
    var records: seq<Record>, tokensIn, tokensOut := [], 0, 0;
    for step := 1 to maxSteps + 1
      invariant calls == step - 1 && |records| == calls
      invariant Goes(model, step)
      invariant tokensIn == SumIn(model, calls) && tokensOut == SumOut(model, calls)
      invariant workspace == After(root, allowed, command, model, files, calls)
      invariant forall i :: 0 <= i < |records| ==>
                  records[i].step == i + 1 && model(i + 1).call.Some? && Some(records[i].kind) == KindOf(model(i + 1).call.value)
    {
      var reply := model(step);
      calls := step;
      tokensIn, tokensOut := tokensIn + reply.tokensIn, tokensOut + reply.tokensOut;
      if reply.call.None? {
        return LoopResult(records, tokensIn, tokensOut, InvalidToolCall), workspace, calls;
      }
      var tool := reply.call.value;
      if tool.Done? {
        return LoopResult(records + [Record(step, KDone)], tokensIn, tokensOut, SaidDone), workspace, calls;
      }
      var kind := KindOf(tool);
      if kind.None? {
        return LoopResult(records, tokensIn, tokensOut, UnknownTool), workspace, calls;
      }
      workspace := Apply(root, allowed, command, workspace, tool);
      records := records + [Record(step, kind.value)];
    }
    r := LoopResult(records, tokensIn, tokensOut, BudgetExhausted);
  }

  // ---- What the loop can change ------------------------------------------------------------------------------

  predicate SameAt(a: Files, b: Files, p: Path) { (p in a <==> p in b) && (p in a ==> a[p] == b[p]) }

  predicate Runs(model: Model, k: nat) { model(k).call.Some? && model(k).call.value.RunCommand? }

  // Every run of the command leaves the workspace as it found it.
  ghost predicate Harmless(root: Path, allowed: set<Path>, command: bool, model: Model, files: Files, n: nat) {
    forall k: nat :: 1 <= k <= n && command && Runs(model, k) ==>
      model(k).call.value.after == After(root, allowed, command, model, files, k - 1)
  }

  // If the command changes nothing, a file differs from how it started only if an allowed path leads to it, and no
  // file disappears.
  lemma {:induction false} OnlyAllowedTargetsChange(root: Path, allowed: set<Path>, command: bool, model: Model, files: Files, n: nat, p: Path)
    requires Harmless(root, allowed, command, model, files, n)
    ensures var now := After(root, allowed, command, model, files, n);
            (LeadsTo(root, allowed, p) || SameAt(files, now, p)) && (p in files ==> p in now)
  {
    if n > 0 {
      OnlyAllowedTargetsChange(root, allowed, command, model, files, n - 1, p);
    }
  }

  // ---- S03.60: what counts as changed ------------------------------------------------------------------------------

  predicate Ignored(ignored: set<string>, p: Path) { exists i :: 0 <= i < |p| && p[i] in ignored }

  // A workspace file under the root, not in an ignored directory, that the source lacks or has differently.
  predicate IsChanged(root: Path, ignored: set<string>, source: Files, workspace: Files, p: Path) {
    Plain(root) && root + p in workspace && !Ignored(ignored, p) && !SameAt(source, workspace, root + p)
  }

  // The scan over the files found in the workspace. The source tree is compared at the same relative
  // path; both are keyed here by the workspace's own root.
  method DiffChangedFiles(root: Path, ignored: set<string>, source: Files, workspace: Files, listing: seq<Path>)
    returns (changed: set<Path>)
    requires Plain(root)
    requires forall t :: t in workspace && Inside(root, t) <==> Inside(root, t) && t in listing
    ensures forall p :: p in changed <==> IsChanged(root, ignored, source, workspace, p)
  {
    changed := {};
    for k := 0 to |listing|
      invariant forall p :: p in changed <==> IsChanged(root, ignored, source, workspace, p) && root + p in listing[..k]
    {
      var t := listing[k];
      assert listing[..k + 1] == listing[..k] + [t];
      ghost var before := changed;
      if Inside(root, t) && t in workspace {
        var rel := Relative(root, t);
        assert root + rel == t;
        if !Ignored(ignored, rel) && (t !in source || source[t] != workspace[t]) {
          changed := changed + {rel};
        }
        forall p ensures p in changed <==> IsChanged(root, ignored, source, workspace, p) && root + p in listing[..k + 1] {
          SameRelative(root, p, rel);
        }
      } else {
        forall p ensures p in changed <==> IsChanged(root, ignored, source, workspace, p) && root + p in listing[..k + 1] {
          assert Inside(root, root + p);
        }
      }
    }
    assert listing[..|listing|] == listing;
    forall p ensures p in changed <==> IsChanged(root, ignored, source, workspace, p) {
      assert Inside(root, root + p);
    }
  }

  lemma SameRelative(root: Path, p: Path, q: Path)
    ensures root + p == root + q <==> p == q
    ensures Inside(root, root + p) && Relative(root, root + p) == p
  {
    if root + p == root + q {
      assert p == (root + p)[|root|..] && q == (root + q)[|root|..];
    }
  }

  // S03.60's path check: every changed file is one of the allowed paths.
  ghost predicate InScope(root: Path, ignored: set<string>, source: Files, workspace: Files, allowed: set<Path>) {
    forall p :: IsChanged(root, ignored, source, workspace, p) ==> p in allowed
  }

  // The allowed paths are closed under normalising: where one leads, it is itself allowed.
  ghost predicate Closed(root: Path, ignored: set<string>, allowed: set<Path>) {
    forall p :: LeadsTo(root, allowed, root + p) && !Ignored(ignored, p) ==> p in allowed
  }

  lemma PlainPathsAreClosed(root: Path, ignored: set<string>, allowed: set<Path>)
    requires Plain(root) && forall p :: p in allowed ==> Plain(p)
    ensures Closed(root, ignored, allowed)
  {
    forall p | LeadsTo(root, allowed, root + p) ensures p in allowed {
      var q :| q in allowed && Target(root, q) == root + p;
      assert Plain(root + q);
      NormalIsPlain(root + q);
      SameRelative(root, p, q);
    }
  }

  // One write, and nothing else.
  function WriteOnce(p: Path, text: string): Model {
    k => if k == 1 then Reply(0, 0, Some(WriteFile(Some(p), Some(text), false))) else Reply(0, 0, Some(Done))
  }

  ghost predicate NeverViolates(root: Path, ignored: set<string>, allowed: set<Path>) {
    forall model, files, n :: Harmless(root, allowed, true, model, files, n) ==>
      InScope(root, ignored, files, After(root, allowed, true, model, files, n), allowed)
  }

  lemma ClosedNeverViolates(root: Path, ignored: set<string>, allowed: set<Path>, model: Model, files: Files, n: nat)
    requires Closed(root, ignored, allowed) && Harmless(root, allowed, true, model, files, n)
    ensures InScope(root, ignored, files, After(root, allowed, true, model, files, n), allowed)
  {
    var now := After(root, allowed, true, model, files, n);
    forall p | IsChanged(root, ignored, files, now, p) ensures p in allowed {
      OnlyAllowedTargetsChange(root, allowed, true, model, files, n, root + p);
    }
  }

  // An executor that only ever writes where it is allowed to, in a workspace that starts out equal to the
  // source, passes the path check whatever the model says, exactly when its allowed paths are closed
  // under normalising. An allowed path such as a/../b is written as b and then reported out of scope.
  lemma ScopeHoldsWhen(root: Path, ignored: set<string>, allowed: set<Path>)
    requires Plain(root)
    ensures NeverViolates(root, ignored, allowed) <==> Closed(root, ignored, allowed)
  {
    if Closed(root, ignored, allowed) {
      forall model, files, n | Harmless(root, allowed, true, model, files, n)
        ensures InScope(root, ignored, files, After(root, allowed, true, model, files, n), allowed)
      {
        ClosedNeverViolates(root, ignored, allowed, model, files, n);
      }
    } else {
      var p :| LeadsTo(root, allowed, root + p) && !Ignored(ignored, p) && p !in allowed;
      var q :| q in allowed && Target(root, q) == root + p;
      var model := WriteOnce(q, "text");
      WritesThere(root, ignored, allowed, p, q);
      assert !Runs(model, 1);
      assert Harmless(root, allowed, true, model, map[], 1);
      assert !InScope(root, ignored, map[], After(root, allowed, true, model, map[], 1), allowed);
    }
  }

  lemma WritesThere(root: Path, ignored: set<string>, allowed: set<Path>, p: Path, q: Path)
    requires Plain(root) && q in allowed && Target(root, q) == root + p && root + p != root && !Ignored(ignored, p)
    ensures IsChanged(root, ignored, map[], After(root, allowed, true, WriteOnce(q, "text"), map[], 1), p)
  {
    var now := After(root, allowed, true, WriteOnce(q, "text"), map[], 1);
    assert Inside(root, root + p);
    assert After(root, allowed, true, WriteOnce(q, "text"), map[], 0) == map[];
    assert now == map[root + p := "text"];
  }

  // Only files still in the workspace are looked at: deleting one, in scope or not, is never reported.
  lemma DeletionsGoUnreported(root: Path, ignored: set<string>, source: Files, workspace: Files, gone: Path, p: Path)
    ensures IsChanged(root, ignored, source, workspace - {root + gone}, p) <==>
            IsChanged(root, ignored, source, workspace, p) && p != gone
  {
    SameRelative(root, p, gone);
  }

  // Every unignored difference outside the allowed paths shows up as a changed file.
  ghost predicate ReportsAll(root: Path, ignored: set<string>, source: Files, workspace: Files, allowed: set<Path>) {
    forall p :: !Ignored(ignored, p) && p !in allowed && !SameAt(source, workspace, root + p) ==>
      IsChanged(root, ignored, source, workspace, p)
  }

  // Every unignored source file outside the allowed paths is still there.
  ghost predicate NothingGone(root: Path, ignored: set<string>, source: Files, workspace: Files, allowed: set<Path>) {
    forall p :: !Ignored(ignored, p) && p !in allowed && root + p in source ==> root + p in workspace
  }

  // So the check misses nothing outside the scope exactly when nothing outside the scope was deleted.
  lemma ReportsAllWhen(root: Path, ignored: set<string>, source: Files, workspace: Files, allowed: set<Path>)
    requires Plain(root)
    ensures ReportsAll(root, ignored, source, workspace, allowed) <==> NothingGone(root, ignored, source, workspace, allowed)
  {
    if !NothingGone(root, ignored, source, workspace, allowed) {
      var p :| !Ignored(ignored, p) && p !in allowed && root + p in source && root + p !in workspace;
      assert !SameAt(source, workspace, root + p) && !IsChanged(root, ignored, source, workspace, p);
    }
  }

  // The authorised command empties the workspace, then the executor says it is done.
  function DeleteAll(): Model {
    k => if k == 1 then Reply(0, 0, Some(RunCommand(map[]))) else Reply(0, 0, Some(Done))
  }

  // A loop that ends normally, has deleted a file outside the scope, and passes the path check.
  method CommandDeletes(root: Path, file: Path, text: string) returns (r: LoopResult, workspace: Files)
    requires Plain(root)
    ensures r.reason == SaidDone && root + file !in workspace
    ensures InScope(root, {}, map[root + file := text], workspace, {})
    ensures !ReportsAll(root, {}, map[root + file := text], workspace, {})
  {
    var source := map[root + file := text];
    var calls;
    r, workspace, calls := RunAgentLoop(root, {}, true, DeleteAll(), source, 8);
    assert !Stops(DeleteAll()(1)) && Stops(DeleteAll()(2));
    assert calls == 2;
    assert After(root, {}, true, DeleteAll(), source, 0) == source;
    assert After(root, {}, true, DeleteAll(), source, 1) == map[];
    assert workspace == map[];
    assert !Ignored({}, file) && !SameAt(source, workspace, root + file);
  }

  // ---- Symbols ------------------------------------------------------------------------------------------------------

  // A parsed file's definitions by name; None when it is missing or does not parse.
  type Symbols = Option<map<string, string>>

  function Names(a: map<string, string>, b: map<string, string>): set<string> { a.Keys + b.Keys }

  predicate Differs(a: map<string, string>, b: map<string, string>, name: string) {
    (name in a) != (name in b) || (name in a && name in b && a[name] != b[name])
  }

  function OutOfScope(python: bool, original: Symbols, edited: Symbols, declared: set<string>): set<string> {
    if !python || original.None? || edited.None? then {} else
    set n <- Names(original.value, edited.value) | Differs(original.value, edited.value, n) && n !in declared
  }

  // The file's undeclared definitions are untouched exactly when nothing is reported, as far as both
  // versions could be parsed.
  lemma SymbolScope(python: bool, original: Symbols, edited: Symbols, declared: set<string>)
    ensures OutOfScope(python, original, edited, declared) == {} <==>
            (!python || original.None? || edited.None? ||
             forall n :: n !in declared ==> !Differs(original.value, edited.value, n))
  {
    if python && original.Some? && edited.Some? {
      var out := OutOfScope(python, original, edited, declared);
      if out == {} {
        forall n | n !in declared ensures !Differs(original.value, edited.value, n) {
          assert n !in out;
        }
      }
    }
  }

  // ---- The whole verdict of S03.60 --------------------------------------------------------------------------------------

  // How files are read as Python: which ones, and what they define.
  datatype Parser = Parser(python: Path -> bool, parse: string -> Symbols)

  function SymbolsAt(parser: Parser, files: Files, t: Path): Symbols {
    if t in files then parser.parse(files[t]) else None
  }

  function SymbolsOutside(parser: Parser, root: Path, source: Files, workspace: Files, declared: map<Path, set<string>>, p: Path): set<string> {
    if p !in declared then {}
    else OutOfScope(parser.python(p), SymbolsAt(parser, source, root + p), SymbolsAt(parser, workspace, root + p), declared[p])
  }

  // No definition outside the declared ones differs, as far as the file is Python and both versions parse.
  ghost predicate KeepsUndeclared(parser: Parser, root: Path, source: Files, workspace: Files, declared: map<Path, set<string>>, p: Path) {
    var a, b := SymbolsAt(parser, source, root + p), SymbolsAt(parser, workspace, root + p);
    p in declared && parser.python(p) && a.Some? && b.Some? ==> forall n :: n !in declared[p] ==> !Differs(a.value, b.value, n)
  }

  // S03.60 over the changed files: `in_scope` exactly when each is allowed and keeps its undeclared symbols.
  method CheckScope(parser: Parser, root: Path, ignored: set<string>, source: Files, workspace: Files,
                    allowed: set<Path>, declared: map<Path, set<string>>, changed: seq<Path>)
    returns (inScope: bool, paths: seq<Path>, symbols: seq<(Path, set<string>)>)
    requires forall p :: p in changed <==> IsChanged(root, ignored, source, workspace, p)
    ensures inScope <==> forall p :: IsChanged(root, ignored, source, workspace, p) ==>
                           p in allowed && KeepsUndeclared(parser, root, source, workspace, declared, p)
    ensures forall p :: p in paths <==> IsChanged(root, ignored, source, workspace, p) && p !in allowed
    ensures inScope <==> paths == [] && symbols == []
  {
    paths := OutsidePaths(allowed, changed);
    symbols := OutsideSymbols(parser, root, source, workspace, allowed, declared, changed);
    inScope := paths == [] && symbols == [];
    if inScope {
      forall p | IsChanged(root, ignored, source, workspace, p)
        ensures p in allowed && KeepsUndeclared(parser, root, source, workspace, declared, p)
      {
        assert p in changed && p !in paths;
      }
    } else if paths != [] {
      assert paths[0] in paths;
    } else {
      ghost var p :| p in changed && p in allowed && !KeepsUndeclared(parser, root, source, workspace, declared, p);
    }
  }

  method OutsidePaths(allowed: set<Path>, changed: seq<Path>) returns (paths: seq<Path>)
    ensures forall p :: p in paths <==> p in changed && p !in allowed
  {
    paths := [];
    for k := 0 to |changed|
      invariant forall p :: p in paths <==> p in changed[..k] && p !in allowed
    {
      assert changed[..k + 1] == changed[..k] + [changed[k]];
      if changed[k] !in allowed {
        paths := paths + [changed[k]];
      }
    }
    assert changed[..|changed|] == changed;
  }

  method OutsideSymbols(parser: Parser, root: Path, source: Files, workspace: Files,
                        allowed: set<Path>, declared: map<Path, set<string>>, changed: seq<Path>)
    returns (symbols: seq<(Path, set<string>)>)
    ensures symbols == [] <==> forall p :: p in changed && p in allowed ==> KeepsUndeclared(parser, root, source, workspace, declared, p)
    ensures forall v :: v in symbols ==> v.0 in changed && v.1 == SymbolsOutside(parser, root, source, workspace, declared, v.0) && v.1 != {}
  {
    symbols := [];
    for k := 0 to |changed|
      invariant symbols == [] <==>
                forall p :: p in changed[..k] && p in allowed ==> KeepsUndeclared(parser, root, source, workspace, declared, p)
      invariant forall v :: v in symbols ==> v.0 in changed && v.1 == SymbolsOutside(parser, root, source, workspace, declared, v.0) && v.1 != {}
    {
      var p := changed[k];
      assert changed[..k + 1] == changed[..k] + [p];
      UndeclaredKept(parser, root, source, workspace, declared, p);
      if p !in allowed || p !in declared {
        continue;
      }
      var outside := SymbolsOutside(parser, root, source, workspace, declared, p);
      if outside != {} {
        symbols := symbols + [(p, outside)];
      }
    }
    assert changed[..|changed|] == changed;
  }

  lemma UndeclaredKept(parser: Parser, root: Path, source: Files, workspace: Files, declared: map<Path, set<string>>, p: Path)
    ensures SymbolsOutside(parser, root, source, workspace, declared, p) == {} <==>
            KeepsUndeclared(parser, root, source, workspace, declared, p)
  {
    if p in declared {
      SymbolScope(parser.python(p), SymbolsAt(parser, source, root + p), SymbolsAt(parser, workspace, root + p), declared[p]);
    }
  }
}
