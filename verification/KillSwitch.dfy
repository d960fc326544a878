/** The layered kill switch of risk/kill_switch.py: as a value, and as the object that holds it. */
module KillSwitch {
  import opened Values

  datatype Scope = Global | Account | Strategy

  datatype Block = Block(scope: Scope, reason: string)

  /** The three levels; a strategy may be blocked for one account or for all of them. */
  datatype Levels = Levels(
    global: Option<string>, accounts: map<string, string>, strategies: map<(Option<string>, string), string>) {

    /** The arguments an operation at this scope needs. */
    static predicate Addressed(scope: Scope, account: Option<string>, strategy: Option<string>) {
      (scope.Account? ==> account.Some?) && (scope.Strategy? ==> strategy.Some?)
    }

    function Engage(reason: string, scope: Scope, account: Option<string>, strategy: Option<string>): Levels
      requires Addressed(scope, account, strategy)
    {
      match scope
      case Global => this.(global := Some(reason))
      case Account => this.(accounts := accounts[account.value := reason])
      case Strategy => this.(strategies := strategies[(account, strategy.value) := reason])
    }

    function Release(scope: Scope, account: Option<string>, strategy: Option<string>): Levels
      requires Addressed(scope, account, strategy)
    {
      match scope
      case Global => this.(global := None)
      case Account => this.(accounts := accounts - {account.value})
      case Strategy => this.(strategies := strategies - {(account, strategy.value)})
    }

    function ResolveBlock(account: Option<string>, strategy: Option<string>): Option<Block> {
      if global.Some? then Some(Block(Global, global.value))
      else if account.Some? && account.value in accounts then Some(Block(Account, accounts[account.value]))
      else if strategy.Some? && account.Some? && (account, strategy.value) in strategies then
        Some(Block(Strategy, strategies[(account, strategy.value)]))
      else if strategy.Some? && (None, strategy.value) in strategies then
        Some(Block(Strategy, strategies[(None, strategy.value)]))
      else None
    }
  }

  const Clear := Levels(None, map[], map[])

  /** Whether execution is blocked for an account and strategy: by any of the four entries that
      concern them, and by no others. */
  lemma BlockedExactlyByOwnEntries(k: Levels, account: Option<string>, strategy: Option<string>)
    ensures k.ResolveBlock(account, strategy).Some? <==>
      || k.global.Some?
      || (account.Some? && account.value in k.accounts)
      || (strategy.Some? && (account, strategy.value) in k.strategies)
      || (strategy.Some? && (None, strategy.value) in k.strategies)
  {
  }

  /** Engaging blocks whoever is in scope; releasing afterwards restores everything but an
      earlier reason at the very same entry. */
  lemma ReleaseUndoesEngage(k: Levels, reason: string, scope: Scope, account: Option<string>, strategy: Option<string>)
    requires Levels.Addressed(scope, account, strategy)
    ensures k.Engage(reason, scope, account, strategy).ResolveBlock(account, strategy).Some?
    ensures k.Engage(reason, scope, account, strategy).Release(scope, account, strategy) ==
      k.Release(scope, account, strategy)
    ensures k.Engage(reason, scope, account, strategy).Release(scope, account, strategy) == k <==>
      match scope
      case Global => k.global.None?
      case Account => account.value !in k.accounts
      case Strategy => (account, strategy.value) !in k.strategies
  {
    var r := k.Engage(reason, scope, account, strategy).Release(scope, account, strategy);
    var s := k.Release(scope, account, strategy);
    match scope {
      case Global =>
      case Account =>
        assert r.accounts == s.accounts;
        assert account.value !in k.accounts ==> r.accounts == k.accounts;
      case Strategy =>
        assert r.strategies == s.strategies;
        assert (account, strategy.value) !in k.strategies ==> r.strategies == k.strategies;
    }
  }

  class KillSwitch {
    var globalReason: Option<string>
    var accountReasons: map<string, string>
    var strategyReasons: map<(Option<string>, string), string>

    constructor ()
      ensures Value() == Clear
    {
      globalReason, accountReasons, strategyReasons := None, map[], map[];
    }

    function Value(): Levels
      reads this
    {
      Levels(globalReason, accountReasons, strategyReasons)
    }

    /** False is the ValueError for a missing identifier; nothing changes then. */
    method Engage(reason: string, scope: Scope, account: Option<string>, strategy: Option<string>) returns (ok: bool)
      modifies this
      ensures ok <==> Levels.Addressed(scope, account, strategy)
      ensures Value() == if ok then old(Value()).Engage(reason, scope, account, strategy) else old(Value())
    {
      if scope == Global {
        globalReason := Some(reason);
        return true;
      }
      if scope == Account {
        if account == None {
          return false;
        }
        accountReasons := accountReasons[account.value := reason];
        return true;
      }
      if strategy == None {
        return false;
      }
      strategyReasons := strategyReasons[(account, strategy.value) := reason];
      ok := true;
    }

    method Release(scope: Scope, account: Option<string>, strategy: Option<string>) returns (ok: bool)
      modifies this
      ensures ok <==> Levels.Addressed(scope, account, strategy)
      ensures Value() == if ok then old(Value()).Release(scope, account, strategy) else old(Value())
    {
      if scope == Global {
        globalReason := None;
        return true;
      }
      if scope == Account {
        if account == None {
          return false;
        }
        accountReasons := accountReasons - {account.value};
        return true;
      }
      if strategy == None {
        return false;
      }
      strategyReasons := strategyReasons - {(account, strategy.value)};
      ok := true;
    }
  }
}
