/**
 * CommandInvoker: the stack of executed commands, the stack of undone
 * commands and the bounded history. The Command interface is a datatype with
 * one variant per command class; the invoker's stacks are sequences whose
 * last element is the top.
 */
module Invocation {
  import opened Wrappers
  import opened Dates
  import opened Accounts
  import opened Commands

  /** An object implementing the Command interface. */
  datatype Command =
    | OfDeposit(deposit: DepositCommand)
    | OfWithdraw(withdraw: WithdrawCommand)
    | OfTransfer(transfer: TransferCommand)
    | OfPayBill(payBill: PayBillCommand)

  /** Everything a command's execute or undo may change. */
  function Targets(c: Command): set<object> {
    match c
    case OfDeposit(d) => {d, d.account, d.transactionManager}
    case OfWithdraw(w) => {w, w.account, w.transactionManager}
    case OfTransfer(t) => {t, t.fromAccount, t.toAccount, t.transactionManager}
    case OfPayBill(p) => {p, p.payerAccount, p.bill}
  }

  /** The accounts a command uses are among S. */
  predicate Fits(c: Command, S: set<Account>) {
    match c
    case OfDeposit(d) => d.account in S
    case OfWithdraw(w) => w.account in S
    case OfTransfer(t) => t.fromAccount in S && t.toAccount in S
    case OfPayBill(_) => true
  }

  /** The command's own `executed` flag. */
  predicate Executed(c: Command)
    reads Targets(c)
  {
    match c
    case OfDeposit(d) => d.executed
    case OfWithdraw(w) => w.executed
    case OfTransfer(t) => t.executed
    case OfPayBill(p) => p.executed
  }

  /** Command.isUndoable. */
  predicate Undoable(c: Command)
    reads Targets(c)
  {
    match c
    case OfDeposit(d) => d.IsUndoable()
    case OfWithdraw(w) => w.IsUndoable()
    case OfTransfer(t) => t.IsUndoable()
    case OfPayBill(p) => p.IsUndoable()
  }

  /**
   * Command.execute. Every command succeeds only when it had not run, and a
   * success is what sets its flag; each class's own Execute says what else changes.
   */
  method ExecuteOf(ghost S: set<Account>, c: Command, at: DateTime) returns (ok: bool)
    requires Fits(c, S)
    modifies Targets(c)
    ensures ok ==> !old(Executed(c))
    ensures Executed(c) == (old(Executed(c)) || ok)
  {
    match c
    case OfDeposit(d) =>
      ok := d.Execute(S);
    case OfWithdraw(w) =>
      ok := w.Execute(S);
    case OfTransfer(t) =>
      ok := t.Execute(S);
    case OfPayBill(p) =>
      ok := p.Execute(at);
  }

  /** Command.undo: succeeds only on an executed command, and a success clears its flag. */
  method UndoOf(ghost S: set<Account>, c: Command) returns (ok: bool)
    requires Fits(c, S)
    modifies Targets(c)
    ensures ok ==> old(Executed(c))
    ensures Executed(c) == (old(Executed(c)) && !ok)
  {
    match c
    case OfDeposit(d) =>
      ok := d.Undo(S);
    case OfWithdraw(w) =>
      ok := w.Undo(S);
    case OfTransfer(t) =>
      ok := t.Undo(S);
    case OfPayBill(p) =>
      ok := p.Undo();
  }

  /** The invoker's three lists. */
  datatype Stacks = Stacks(executed: seq<Command>, undone: seq<Command>, history: seq<Command>)

  /** Add to the history, dropping its oldest entry when it grows past the limit. */
  function Trimmed(history: seq<Command>, c: Command, maxHistorySize: int): seq<Command> {
    var h := history + [c];
    if |h| > maxHistorySize then h[1..] else h
  }

  /** A successful executeCommand: push, clear the redo stack, add to the history. */
  function Pushed(st: Stacks, c: Command, maxHistorySize: int): Stacks {
    Stacks(st.executed + [c], [], Trimmed(st.history, c, maxHistorySize))
  }

  /** A successful undo: the top of the executed stack moves onto the undone stack. */
  function Moved(st: Stacks): Stacks
    requires |st.executed| > 0
  {
    var n := |st.executed|;
    Stacks(st.executed[..n - 1], st.undone + [st.executed[n - 1]], st.history)
  }

  /**
   * redo: the top of the undone stack is popped first; it goes onto the
   * executed stack only when its execute succeeded.
   */
  function Redone(st: Stacks, ok: bool): Stacks
    requires |st.undone| > 0
  {
    var m := |st.undone|;
    var c := st.undone[m - 1];
    Stacks(if ok then st.executed + [c] else st.executed, st.undone[..m - 1], st.history)
  }

  /** The history after successful executes of cs, one after another. */
  function HistoryAfter(history: seq<Command>, cs: seq<Command>, maxHistorySize: int): seq<Command>
    decreases |cs|
  {
    if cs == [] then history
    else HistoryAfter(Trimmed(history, cs[0], maxHistorySize), cs[1..], maxHistorySize)
  }

  function Min(a: int, b: int): int {
    if a <= b then a else b
  }

  /** The last element of a non-empty stack, or nothing to change for an empty one. */
  function TopTargets(cs: seq<Command>): set<object> {
    if cs == [] then {} else Targets(cs[|cs| - 1])
  }

  class CommandInvoker {
    var executedCommands: seq<Command>
    var undoneCommands: seq<Command>
    var commandHistory: seq<Command>
    var maxHistorySize: int

    function State(): Stacks
      reads this
    {
      Stacks(executedCommands, undoneCommands, commandHistory)
    }

    /** Every command on the two stacks uses accounts among S. */
    predicate FitsIn(S: set<Account>)
      reads this
    {
      (forall i :: 0 <= i < |executedCommands| ==> Fits(executedCommands[i], S)) &&
      (forall i :: 0 <= i < |undoneCommands| ==> Fits(undoneCommands[i], S))
    }

    /** new CommandInvoker(): empty stacks and history, at most 100 history entries. */
    constructor()
      ensures State() == Stacks([], [], []) && maxHistorySize == 100
    {
      executedCommands := [];
      undoneCommands := [];
      commandHistory := [];
      maxHistorySize := 100;
    }

    /**
     * executeCommand: on success the command is pushed, the redo stack is
     * cleared and the history grows, dropping its oldest entry past the limit;
     * on failure the three lists are unchanged.
     */
    method ExecuteCommand(ghost S: set<Account>, command: Command, at: DateTime) returns (success: bool)
      requires FitsIn(S) && Fits(command, S)
      modifies this, Targets(command)
      ensures FitsIn(S) && maxHistorySize == old(maxHistorySize)
      ensures State() == (if success then Pushed(old(State()), command, maxHistorySize) else old(State()))
      ensures success ==> !old(Executed(command))
      ensures Executed(command) == (old(Executed(command)) || success)
    {
      success := ExecuteOf(S, command, at);
      if success {
        executedCommands := executedCommands + [command];
        undoneCommands := [];
        commandHistory := commandHistory + [command];
        if |commandHistory| > maxHistorySize {
          commandHistory := commandHistory[1..];
        }
      }
    }

    /** canUndo: a top command that is undoable. */
    predicate CanUndo()
      reads this, TopTargets(executedCommands)
    {
      |executedCommands| > 0 && Undoable(executedCommands[|executedCommands| - 1])
    }

    /** canRedo. */
    predicate CanRedo()
      reads this
    {
      |undoneCommands| > 0
    }

    /**
     * undo: refused with nothing changed on an empty stack or a top that is
     * not undoable; otherwise the top's undo runs, and only a success moves
     * it to the undone stack.
     */
    method Undo(ghost S: set<Account>) returns (success: bool)
      requires FitsIn(S)
      modifies this, TopTargets(executedCommands)
      ensures FitsIn(S) && maxHistorySize == old(maxHistorySize)
      ensures success ==> old(CanUndo())
      ensures State() == (if success then Moved(old(State())) else old(State()))
      ensures old(CanUndo()) ==> var c := old(executedCommands[|executedCommands| - 1]);
        Executed(c) == (old(Executed(c)) && !success)
    {
      if |executedCommands| == 0 {
        return false;
      }
      var command := executedCommands[|executedCommands| - 1];
      if !Undoable(command) {
        return false;
      }
      assert Fits(command, S);
      success := UndoOf(S, command);
      if success {
        executedCommands := executedCommands[..|executedCommands| - 1];
        undoneCommands := undoneCommands + [command];
      }
    }

    /**
     * redo: refused on an empty undone stack; otherwise the top is popped
     * and executed again, and goes back onto the executed stack only on
     * success. The history is never touched.
     */
    method Redo(ghost S: set<Account>, at: DateTime) returns (success: bool)
      requires FitsIn(S)
      modifies this, TopTargets(undoneCommands)
      ensures FitsIn(S) && maxHistorySize == old(maxHistorySize)
      ensures old(|undoneCommands|) == 0 ==> !success && State() == old(State())
      ensures old(|undoneCommands|) > 0 ==> State() == Redone(old(State()), success)
      ensures old(|undoneCommands|) > 0 ==> var c := old(undoneCommands[|undoneCommands| - 1]);
        Executed(c) == (old(Executed(c)) || success) && (success ==> !old(Executed(c)))
    {
      if |undoneCommands| == 0 {
        return false;
      }
      var command := undoneCommands[|undoneCommands| - 1];
      assert Fits(command, S);
      undoneCommands := undoneCommands[..|undoneCommands| - 1];
      success := ExecuteOf(S, command, at);
      if success {
        executedCommands := executedCommands + [command];
      }
    }

    /** clearHistory: all three lists emptied. */
    method ClearHistory()
      modifies this
      ensures State() == Stacks([], [], []) && maxHistorySize == old(maxHistorySize)
    {
      executedCommands := [];
      undoneCommands := [];
      commandHistory := [];
    }

    /** setMaxHistorySize: the history is not trimmed until the next execute. */
    method SetMaxHistorySize(size: int)
      modifies this
      ensures State() == old(State()) && maxHistorySize == size
    {
      maxHistorySize := size;
    }
  }

  // -----------------------------------------------------------------------
  // Properties
  // -----------------------------------------------------------------------

  /**
   * Under a positive limit, a history within the limit stays within it,
   * keeps its newest entry, and loses at most its oldest one.
   */
  lemma TrimmedStaysBounded(history: seq<Command>, c: Command, maxHistorySize: int)
    requires |history| <= maxHistorySize && maxHistorySize >= 1
    ensures var h := Trimmed(history, c, maxHistorySize);
      |h| <= maxHistorySize && |h| > 0 && h[|h| - 1] == c &&
      (h == history + [c] || h == history[1..] + [c])
  {
  }

  /**
   * Starting within the limit, the history after any series of successful
   * executes is the newest min(n, limit) of all the commands seen.
   */
  lemma {:induction false} HistoryKeepsNewest(history: seq<Command>, cs: seq<Command>, maxHistorySize: int)
    requires |history| <= maxHistorySize
    ensures var all := history + cs;
      HistoryAfter(history, cs, maxHistorySize) == all[|all| - Min(|all|, maxHistorySize)..]
    decreases |cs|
  {
    var all := history + cs;
    if cs == [] {
      assert all == history;
    } else {
      var x := history + [cs[0]];
      assert all == x + cs[1..] by {
        assert cs == [cs[0]] + cs[1..];
      }
      var h1 := Trimmed(history, cs[0], maxHistorySize);
      HistoryKeepsNewest(h1, cs[1..], maxHistorySize);
      if |x| > maxHistorySize {
        assert h1 + cs[1..] == all[1..];
        var all1 := all[1..];
        assert all1[|all1| - Min(|all1|, maxHistorySize)..] == all[|all| - Min(|all|, maxHistorySize)..];
      }
    }
  }

  /**
   * A successful undo followed by a successful redo puts the three lists back
   * as they were; a failed redo drops the command from both stacks. Neither
   * touches the history.
   */
  lemma UndoThenRedo(st: Stacks)
    requires |st.executed| > 0
    ensures Redone(Moved(st), true) == st
    ensures var st' := Redone(Moved(st), false);
      st'.executed == st.executed[..|st.executed| - 1] && st'.undone == st.undone && st'.history == st.history
  {
    assert st.executed[..|st.executed| - 1] + [st.executed[|st.executed| - 1]] == st.executed;
    assert (st.undone + [st.executed[|st.executed| - 1]])[..|st.undone|] == st.undone;
  }

  /**
   * A successful execute empties the redo stack and puts the command on top
   * of the executed stack and at the end of the history.
   */
  lemma PushedContract(st: Stacks, c: Command, maxHistorySize: int)
    requires maxHistorySize >= 1
    ensures var st' := Pushed(st, c, maxHistorySize);
      st'.undone == [] && st'.executed[..|st.executed|] == st.executed &&
      |st'.executed| == |st.executed| + 1 && st'.executed[|st.executed|] == c &&
      |st'.history| > 0 && st'.history[|st'.history| - 1] == c
  {
  }
}
