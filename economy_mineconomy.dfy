/** The MineConomy economy adapter: a handle to the MineConomy plugin that
    plugin events set and clear, and a player ledger (MineConomy's shared
    accounts table) that withdrawals, deposits and account creation update. */
module MineConomyEconomy {
  import Wrappers

  /** A plugin as the plugin manager reports it: its name and whether it is
      enabled at the moment it is asked. */
  datatype Plugin = Plugin(name: string, enabled: bool)

  datatype ResponseType = Success | Failure | NotImplemented

  /** The answer to a money operation: the amount moved, the balance after
      it, the outcome, and an error message on failure. */
  datatype EconomyResponse = EconomyResponse(amount: real, balance: real, kind: ResponseType,
                                             errorMessage: Wrappers.Option<string>)

  /** MineConomy's accounts: player name to balance. */
  type Ledger = map<string, real>

  const MineConomyName := "MineConomy"

  // Hook state

  /** A server event: an enable event carries what the plugin manager answers,
      at that moment, when asked for "MineConomy"; a disable event carries
      the name of the plugin going down. */
  datatype PluginEvent = PluginEnabled(lookup: Wrappers.Option<Plugin>) | PluginDisabled(pluginName: string)

  /** The lookup qualifies as a hook only when the plugin is there and enabled. */
  predicate Hookable(lookup: Wrappers.Option<Plugin>)
  {
    lookup.Some? && lookup.value.enabled
  }

  /** The handle after one event: an enable event fills an empty handle only
      with a hookable plugin; a disable event empties the handle only when
      MineConomy itself is going down. */
  function NextHandle(handle: Wrappers.Option<Plugin>, event: PluginEvent): Wrappers.Option<Plugin>
  {
    match event
    case PluginEnabled(lookup) => if handle.None? && Hookable(lookup) then lookup else handle
    case PluginDisabled(pluginName) => if handle.Some? && pluginName == MineConomyName then Wrappers.None else handle
  }

  function Replay(handle: Wrappers.Option<Plugin>, events: seq<PluginEvent>): Wrappers.Option<Plugin>
    decreases |events|
  {
    if events == [] then handle else Replay(NextHandle(handle, events[0]), events[1..])
  }

  /** Whatever the events, the handle only ever holds a plugin that was
      enabled when it was hooked, provided the starting handle did. */
  lemma {:induction false} HookedOnlyWhileEnabled(handle: Wrappers.Option<Plugin>, events: seq<PluginEvent>)
    requires handle.Some? ==> handle.value.enabled
    ensures var h := Replay(handle, events); h.Some? ==> h.value.enabled
    decreases |events|
  {
    if events != [] {
      HookedOnlyWhileEnabled(NextHandle(handle, events[0]), events[1..]);
    }
  }

  /** A hooked adapter stays hooked, to the same plugin, until a disable
      event names MineConomy. */
  lemma {:induction false} HookSurvivesOtherEvents(p: Plugin, events: seq<PluginEvent>)
    requires forall i :: 0 <= i < |events| ==> events[i] != PluginDisabled(MineConomyName)
    ensures Replay(Wrappers.Some(p), events) == Wrappers.Some(p)
    decreases |events|
  {
    if events != [] {
      assert NextHandle(Wrappers.Some(p), events[0]) == Wrappers.Some(p);
      HookSurvivesOtherEvents(p, events[1..]);
    }
  }

  // The ledger

  /** A player's balance; a player with no account reads as 0. */
  function Balance(ledger: Ledger, player: string): real
  {
    if player in ledger then ledger[player] else 0.0
  }

  /** has: the balance covers the amount (a negative amount is always covered). */
  predicate Covers(ledger: Ledger, player: string, amount: real)
  {
    Balance(ledger, player) >= amount
  }

  /** Only the player's entry may differ, and the player then has an account. */
  predicate OnlyEntryChanged(before: Ledger, after: Ledger, player: string)
  {
    && after.Keys == before.Keys + {player}
    && forall q :: q in before && q != player ==> after[q] == before[q]
  }

  /** withdrawPlayer, as the response and the ledger it leaves. */
  function Withdrawal(ledger: Ledger, player: string, amount: real): (out: (EconomyResponse, Ledger))
    ensures out.0.kind != NotImplemented
    ensures out.0.kind == Success <==> 0.0 <= amount && Covers(ledger, player, amount)
    ensures out.0.kind == Success ==>
      && out.0.amount == amount
      && Balance(out.1, player) == Balance(ledger, player) - amount
      && out.0.balance == Balance(out.1, player)
      && OnlyEntryChanged(ledger, out.1, player)
      && out.0.errorMessage.None?
    ensures out.0.kind == Failure ==>
      && out.0.amount == 0.0
      && out.0.balance == Balance(ledger, player)
      && out.1 == ledger
      && out.0.errorMessage == Wrappers.Some(if amount < 0.0 then "Cannot withdraw negative funds" else "Insufficient funds")
  {
    var balance := Balance(ledger, player);
    if amount < 0.0 then
      (EconomyResponse(0.0, balance, Failure, Wrappers.Some("Cannot withdraw negative funds")), ledger)
    else if balance >= amount then
      var finalBalance := balance - amount;
      (EconomyResponse(amount, finalBalance, Success, Wrappers.None), ledger[player := finalBalance])
    else
      (EconomyResponse(0.0, balance, Failure, Wrappers.Some("Insufficient funds")), ledger)
  }

  /** depositPlayer, as the response and the ledger it leaves. */
  function Deposit(ledger: Ledger, player: string, amount: real): (out: (EconomyResponse, Ledger))
    ensures out.0.kind != NotImplemented
    ensures out.0.kind == Success <==> amount >= 0.0
    ensures out.0.kind == Success ==>
      && out.0.amount == amount
      && Balance(out.1, player) == Balance(ledger, player) + amount
      && out.0.balance == Balance(out.1, player)
      && OnlyEntryChanged(ledger, out.1, player)
      && out.0.errorMessage.None?
    ensures out.0.kind == Failure ==>
      && out.0.amount == 0.0
      && out.0.balance == Balance(ledger, player)
      && out.1 == ledger
      && out.0.errorMessage == Wrappers.Some("Cannot deposit negative funds")
  {
    var balance := Balance(ledger, player);
    if amount < 0.0 then
      (EconomyResponse(0.0, balance, Failure, Wrappers.Some("Cannot deposit negative funds")), ledger)
    else
      (EconomyResponse(amount, balance + amount, Success, Wrappers.None), ledger[player := balance + amount])
  }

  /** createPlayerAccount, as the answer and the ledger it leaves: a new
      account starts at 0, so no balance reads differently afterwards. */
  function AccountCreation(ledger: Ledger, player: string): (out: (bool, Ledger))
    ensures out.0 <==> player !in ledger
    ensures !out.0 ==> out.1 == ledger
    ensures player in out.1 && OnlyEntryChanged(ledger, out.1, player)
    ensures forall q :: Balance(out.1, q) == Balance(ledger, q)
  {
    if player in ledger then (false, ledger) else (true, ledger[player := 0.0])
  }

  /** In exact arithmetic (reals, not doubles), depositing and then
      withdrawing the same amount restores an existing account that is not
      overdrawn, and both steps succeed. */
  lemma DepositThenWithdraw(ledger: Ledger, player: string, amount: real)
    requires player in ledger && ledger[player] >= 0.0 && amount >= 0.0
    ensures Deposit(ledger, player, amount).0.kind == Success
    ensures Withdrawal(Deposit(ledger, player, amount).1, player, amount).0.kind == Success
    ensures Withdrawal(Deposit(ledger, player, amount).1, player, amount).1 == ledger
  {
    var after := Deposit(ledger, player, amount).1;
    assert Balance(after, player) - amount == ledger[player];
    assert after[player := Balance(after, player) - amount] == ledger;
  }

  /** has agrees with withdrawPlayer for every amount withdrawPlayer accepts:
      the withdrawal succeeds exactly when has says the funds are there. */
  lemma CoversIffWithdrawalSucceeds(ledger: Ledger, player: string, amount: real)
    requires amount >= 0.0
    ensures Covers(ledger, player, amount) <==> Withdrawal(ledger, player, amount).0.kind == Success
  {
  }

  /** No balance is negative. */
  predicate Solvent(ledger: Ledger)
  {
    forall q :: q in ledger ==> ledger[q] >= 0.0
  }

  /** The three ledger operations keep every balance non-negative. */
  lemma OperationsKeepSolvent(ledger: Ledger, player: string, amount: real)
    requires Solvent(ledger)
    ensures Solvent(Withdrawal(ledger, player, amount).1)
    ensures Solvent(Deposit(ledger, player, amount).1)
    ensures Solvent(AccountCreation(ledger, player).1)
  {
    assert Balance(ledger, player) >= 0.0;
  }

  /** Creating an account twice is creating it once: the second call answers
      false and leaves the ledger alone. */
  lemma CreationIdempotent(ledger: Ledger, player: string)
    ensures var once := AccountCreation(ledger, player).1;
      AccountCreation(once, player) == (false, once)
  {
  }

  // Banks

  /** The bank operations, each with the arguments it ignores. */
  datatype BankRequest =
    | CreateBank(bank: string, player: string)
    | DeleteBank(bank: string)
    | BankHas(bank: string, amount: real)
    | BankWithdraw(bank: string, amount: real)
    | BankDeposit(bank: string, amount: real)
    | IsBankOwner(bank: string, player: string)
    | IsBankMember(bank: string, player: string)
    | BankBalance(bank: string)

  /** Every bank operation is answered the same way, whatever its arguments. */
  function Bank(request: BankRequest): (r: EconomyResponse)
    ensures r.kind == NotImplemented && r.amount == 0.0 && r.balance == 0.0
    ensures r.errorMessage == Wrappers.Some("MineConomy does not support bank accounts!")
  {
    EconomyResponse(0.0, 0.0, NotImplemented, Wrappers.Some("MineConomy does not support bank accounts!"))
  }

  function HasBankSupport(): (supported: bool)
    ensures !supported
  {
    false
  }

  function GetBanks(): (banks: seq<string>)
    ensures |banks| == 0
  {
    []
  }

  /** MineConomy's accounts table, shared by every user of the adapter. */
  class Accounts {
    var balances: Ledger

    constructor (balances: Ledger)
      ensures this.balances == balances
    {
      this.balances := balances;
    }
  }

  class EconomyMineConomy {
    const name: string := MineConomyName
    var econ: Wrappers.Option<Plugin>
    const accounts: Accounts

    /** Hooks at once when MineConomy is already loaded and enabled; lookup is
        what the plugin manager answers for "MineConomy" at construction. */
    constructor (lookup: Wrappers.Option<Plugin>, accounts: Accounts)
      ensures this.accounts == accounts
      ensures econ == (if Hookable(lookup) then lookup else Wrappers.None)
    {
      this.accounts := accounts;
      econ := Wrappers.None;
      if lookup.Some? && lookup.value.enabled {
        econ := lookup;
      }
    }

    function GetName(): (n: string)
      ensures n == "MineConomy"
    {
      name
    }

    /** Enabled exactly while the MineConomy handle is set. */
    function IsEnabled(): (hooked: bool)
      reads this
      ensures hooked <==> econ != Wrappers.None
    {
      econ.Some?
    }

    method OnPluginEnable(lookup: Wrappers.Option<Plugin>)
      modifies this
      ensures econ == NextHandle(old(econ), PluginEnabled(lookup))
      ensures IsEnabled() <==> old(IsEnabled()) || Hookable(lookup)
    {
      if econ.None? {
        if lookup.Some? && lookup.value.enabled {
          econ := lookup;
        }
      }
    }

    method OnPluginDisable(pluginName: string)
      modifies this
      ensures econ == NextHandle(old(econ), PluginDisabled(pluginName))
      ensures !IsEnabled() <==> old(!IsEnabled()) || pluginName == MineConomyName
    {
      if econ.Some? {
        if pluginName == MineConomyName {
          econ := Wrappers.None;
        }
      }
    }

    /** An existing account's balance; a player without one reads as 0. */
    function GetBalance(player: string): (b: real)
      reads accounts
      ensures player in accounts.balances ==> b == accounts.balances[player]
      ensures player !in accounts.balances ==> b == 0.0
    {
      Balance(accounts.balances, player)
    }

    /** The balance covers the amount; for a non-negative amount, exactly when
        withdrawing it would succeed. */
    function Has(player: string, amount: real): (r: bool)
      reads accounts
      ensures r <==> Covers(accounts.balances, player, amount)
      ensures amount >= 0.0 ==> (r <==> Withdrawal(accounts.balances, player, amount).0.kind == Success)
    {
      GetBalance(player) >= amount
    }

    /** The player has an account exactly when creating one would be refused;
        without one, the balance reads as 0. */
    function HasAccount(player: string): (r: bool)
      reads accounts
      ensures r <==> !AccountCreation(accounts.balances, player).0
      ensures !r ==> GetBalance(player) == 0.0
    {
      player in accounts.balances
    }

    method WithdrawPlayer(player: string, amount: real) returns (response: EconomyResponse)
      modifies accounts
      ensures (response, accounts.balances) == Withdrawal(old(accounts.balances), player, amount)
      ensures response.kind == Success <==> amount >= 0.0 && old(Has(player, amount))
    {
      var balance := GetBalance(player);
      if amount < 0.0 {
        response := EconomyResponse(0.0, balance, Failure, Wrappers.Some("Cannot withdraw negative funds"));
      } else if balance >= amount {
        var finalBalance := balance - amount;
        accounts.balances := accounts.balances[player := finalBalance];
        response := EconomyResponse(amount, finalBalance, Success, Wrappers.None);
      } else {
        response := EconomyResponse(0.0, balance, Failure, Wrappers.Some("Insufficient funds"));
      }
    }

    method DepositPlayer(player: string, amount: real) returns (response: EconomyResponse)
      modifies accounts
      ensures (response, accounts.balances) == Deposit(old(accounts.balances), player, amount)
    {
      var balance := GetBalance(player);
      if amount < 0.0 {
        response := EconomyResponse(0.0, balance, Failure, Wrappers.Some("Cannot deposit negative funds"));
      } else {
        balance := balance + amount;
        accounts.balances := accounts.balances[player := balance];
        response := EconomyResponse(amount, balance, Success, Wrappers.None);
      }
    }

    method CreatePlayerAccount(player: string) returns (created: bool)
      modifies accounts
      ensures (created, accounts.balances) == AccountCreation(old(accounts.balances), player)
      ensures HasAccount(player)
    {
      if HasAccount(player) {
        return false;
      }
      accounts.balances := accounts.balances[player := 0.0];
      return true;
    }
  }
}
