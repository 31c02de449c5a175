/** A function checked by the compiler and then run by the executor. */
module Pipeline {
  import opened Syntax
  import opened Machine
  import Arguments
  import Compiler
  import Lexical
  import Lookups
  import Refinement
  import Running
  import Soundness
  import Termination

  /** The checker's errors and the executor's run, with its reused scopes, on a stack of `fuel`
      calls, for any function and any table.  Over a table of functions that compile, a
      function that compiles never ends in a function that is not defined, whatever closures
      it keeps; with enough arguments at every call and no `$` names it ends in no undefined
      variable either; where reuse cannot be seen the outcome is the lexical one; and with
      lambdas written as arguments and a positive depth limit the run comes back. */
  method CompileAndRun(k: Config, fuel: nat, f: FnDef, args: Frame) returns (errors: seq<Compiler.CompileError>, r: Outcome)
    ensures errors == [] <==> Compiler.Clean(k, f)
    ensures r == Running.RunExecute(k, fuel, f, args).out
    ensures errors == [] && Soundness.GoodTable(k) && Soundness.PlainFn(f) && r.Err? ==> !r.e.NotDefined?
    ensures Arguments.SuppliedTable(k) && Arguments.SuppliedFn(k, f) && Arguments.FrameWithin(args, {}) && r.Err? ==>
      !r.e.NotDefined? && !r.e.Undefined?
    ensures !k.copies && Refinement.Invisible(k, f, args) ==> r == Lexical.Execute(k, fuel, f, args).out
    ensures !k.copies && Termination.Limited(k) && Termination.DirectFn(k, f) && Termination.FlatFrame(args) && fuel > k.limit ==>
      !r.Overflow?
  {
    hide Termination.DirectTable, Termination.DirectFn, Lexical.Execute, Running.RunExecute,
      Arguments.SuppliedTable, Arguments.SuppliedFn, Soundness.GoodTable, Soundness.PlainFn;
    var checker := new Compiler.Checker(k);
    checker.Compile(f);
    errors := checker.errors;
    var executor := new Executor(k);
    r := executor.Execute(fuel, f, args);
    if errors == [] && Soundness.GoodTable(k) && Soundness.PlainFn(f) {
      Lookups.RunsFindTheirCallees(k, fuel, f, args) by { Soundness.CleanIsGood(k, f); }
    }
    if Arguments.SuppliedTable(k) && Arguments.SuppliedFn(k, f) && Arguments.FrameWithin(args, {}) {
      Lookups.RunsFindTheirNames(k, fuel, f, args);
    }
    if !k.copies && Termination.Limited(k) && Termination.DirectFn(k, f) && Termination.FlatFrame(args) && fuel > k.limit {
      Termination.ExecuteEnds(k, fuel, f, args);
    }
  }
}
