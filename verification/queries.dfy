/** The four queries: wallet connection, latest block, native balance and ERC-20 snapshot.
    Each one is a pure function of the active selection, the library functions,
    the outside world's replies and the user's input, returning the steps it
    performed and either the report lines or the error it ends with. */
module Queries {
  import opened Results
  import opened Networks
  import opened Addresses
  import opened Decimal
  import opened Rpc

  /** The library functions the queries call but do not define: viem's address
      predicate and unit formatters, and the display of `parseInt(hex, 16)`. */
  datatype Lib = Lib(
    isAddress: string -> bool,
    formatEther: int -> string,
    formatUnits: (int, nat) -> string,
    chainIdText: string -> string
  )

  /** What a query did and how it ended. */
  datatype Outcome = Outcome(steps: seq<Step>, report: Result<seq<string>>)

  /** The explorer page of an address on a network. */
  function AddressLink(net: Net, a: string): string {
    net.explorer + "/address/" + a
  }

  /** The explorer page of a block on a network. */
  function BlockLink(net: Net, number: nat): string {
    net.explorer + "/block/" + ToDecimal(number)
  }

  /** `accounts?.[0]` followed by the `!address` test: a missing list, an empty
      list and an empty first string all count as "no address". */
  function FirstAccount(accounts: Option<seq<string>>): (a: Option<string>)
    ensures a.Some? <==> accounts.Some? && |accounts.value| > 0 && accounts.value[0] != ""
    ensures a.Some? ==> a.value == accounts.value[0]
  {
    match accounts
    case None => None
    case Some(list) => if |list| == 0 || list[0] == "" then None else Some(list[0])
  }

  /** `connectWallet`: ask the wallet for accounts, stop if none, ask for the chain id,
      then build a client, validate the address and read its balance. */
  function ConnectWallet(s: Session, lib: Lib, w: World): (o: Outcome)
    ensures var p := ProviderFor(s.active);
      |o.steps| >= 1 && o.steps[0] == WalletRequest(p, EthRequestAccounts)
    ensures var p := ProviderFor(s.active);
      w.accounts(p).Ok? && FirstAccount(w.accounts(p).value).None? ==>
        o == Outcome([WalletRequest(p, EthRequestAccounts)], Err(NoAddressReturned))
    ensures var p := ProviderFor(s.active);
      w.accounts(p).Err? ==> o == Outcome([WalletRequest(p, EthRequestAccounts)], Err(w.accounts(p).error))
    ensures var p := ProviderFor(s.active);
      var c := ClientFor(s.active);
      w.accounts(p).Ok? && FirstAccount(w.accounts(p).value).Some? && w.chainHex(p).Ok? &&
      !lib.isAddress(FirstAccount(w.accounts(p).value).value) ==>
        o == Outcome([WalletRequest(p, EthRequestAccounts), WalletRequest(p, EthChainId), BuildClient(c)],
                     Err(InvalidAddress))
    ensures var p := ProviderFor(s.active);
      w.accounts(p).Ok? && FirstAccount(w.accounts(p).value).Some? && w.chainHex(p).Err? ==>
        o == Outcome([WalletRequest(p, EthRequestAccounts), WalletRequest(p, EthChainId)],
                     Err(w.chainHex(p).error))
    ensures var p := ProviderFor(s.active);
      var c := ClientFor(s.active);
      w.accounts(p).Ok? && FirstAccount(w.accounts(p).value).Some? && w.chainHex(p).Ok? &&
      lib.isAddress(FirstAccount(w.accounts(p).value).value) ==>
        var a := FirstAccount(w.accounts(p).value).value;
        w.balance(c, a).Err? ==>
          o == Outcome([WalletRequest(p, EthRequestAccounts), WalletRequest(p, EthChainId),
                        BuildClient(c), Request(c, GetBalance(a))],
                       Err(w.balance(c, a).error))
    ensures BoundTo(o.steps, s.active)
    ensures Validated(o.steps, lib.isAddress)
    ensures ClientBuiltFirst(o.steps)
    ensures var p := ProviderFor(s.active);
      var c := ClientFor(s.active);
      o.report.Ok? <==>
        && w.accounts(p).Ok?
        && FirstAccount(w.accounts(p).value).Some?
        && w.chainHex(p).Ok?
        && lib.isAddress(FirstAccount(w.accounts(p).value).value)
        && w.balance(c, FirstAccount(w.accounts(p).value).value).Ok?
    ensures var p := ProviderFor(s.active);
      var c := ClientFor(s.active);
      o.report.Ok? ==>
        var a := FirstAccount(w.accounts(p).value).value;
        && o.steps == [WalletRequest(p, EthRequestAccounts), WalletRequest(p, EthChainId),
                       BuildClient(c), Request(c, GetBalance(a))]
        && o.report.value == [
             "Wallet connected",
             "Network: " + s.active.title,
             "chainId: " + lib.chainIdText(w.chainHex(p).value),
             "Address: " + a,
             "ETH balance: " + lib.formatEther(w.balance(c, a).value) + " ETH",
             AddressLink(s.active, a)]
  {
    var p := ProviderFor(s.active);
    var askAccounts := WalletRequest(p, EthRequestAccounts);
    match w.accounts(p)
    case Err(e) => Outcome([askAccounts], Err(e))
    case Ok(accounts) =>
      match FirstAccount(accounts)
      case None => Outcome([askAccounts], Err(NoAddressReturned))
      case Some(address) =>
        var askChain := WalletRequest(p, EthChainId);
        match w.chainHex(p)
        case Err(e) => Outcome([askAccounts, askChain], Err(e))
        case Ok(chainHex) =>
          // `client().getBalance({ address: toAddr(address) })`: the client is built
          // before the argument, and so before the address is checked.
          var c := ClientFor(s.active);
          var built := [askAccounts, askChain, BuildClient(c)];
          match ToAddr(lib.isAddress, address)
          case Err(e) => Outcome(built, Err(e))
          case Ok(a) =>
            var steps := built + [Request(c, GetBalance(a))];
            BuildThenRequest([askAccounts, askChain], c, [Request(c, GetBalance(a))]);
            match w.balance(c, a)
            case Err(e) => Outcome(steps, Err(e))
            case Ok(bal) =>
              Outcome(steps, Ok([
                "Wallet connected",
                "Network: " + s.active.title,
                "chainId: " + lib.chainIdText(chainHex),
                "Address: " + address,
                "ETH balance: " + lib.formatEther(bal) + " ETH",
                AddressLink(s.active, address)]))
  }

  /** `latestBlock`: one block read on a client for the active entry. */
  function LatestBlock(s: Session, lib: Lib, w: World): (o: Outcome)
    ensures var c := ClientFor(s.active);
      o.steps == [BuildClient(c), Request(c, GetBlock)]
    ensures BoundTo(o.steps, s.active) && ClientBuiltFirst(o.steps)
    ensures var c := ClientFor(s.active);
      o.report.Ok? <==> w.block(c).Ok?
    ensures var c := ClientFor(s.active);
      o.report.Err? ==> o.report.error == w.block(c).error
    ensures var c := ClientFor(s.active);
      o.report.Ok? ==>
        var b := w.block(c).value;
        o.report.value == [
          "Latest block",
          "Network: " + s.active.title,
          "Block: " + ToDecimal(b.number),
          "Timestamp: " + ToDecimal(b.timestamp),
          "Gas used: " + ToDecimal(b.gasUsed),
          BlockLink(s.active, b.number)]
  {
    var c := ClientFor(s.active);
    var steps := [BuildClient(c), Request(c, GetBlock)];
    BuildThenRequest([], c, [Request(c, GetBlock)]);
    assert [] + [BuildClient(c)] + [Request(c, GetBlock)] == steps;
    match w.block(c)
    case Err(e) => Outcome(steps, Err(e))
    case Ok(b) =>
      Outcome(steps, Ok([
        "Latest block",
        "Network: " + s.active.title,
        "Block: " + ToDecimal(b.number),
        "Timestamp: " + ToDecimal(b.timestamp),
        "Gas used: " + ToDecimal(b.gasUsed),
        BlockLink(s.active, b.number)]))
  }

  /** `readEth`: validate, then one balance read on a client for the active entry. */
  function ReadEth(s: Session, lib: Lib, w: World, addr: string): (o: Outcome)
    ensures !lib.isAddress(addr) ==> o == Outcome([], Err(InvalidAddress))
    ensures var c := ClientFor(s.active);
      lib.isAddress(addr) ==> o.steps == [BuildClient(c), Request(c, GetBalance(addr))]
    ensures BoundTo(o.steps, s.active) && Validated(o.steps, lib.isAddress) && ClientBuiltFirst(o.steps)
    ensures var c := ClientFor(s.active);
      o.report.Ok? <==> lib.isAddress(addr) && w.balance(c, addr).Ok?
    ensures var c := ClientFor(s.active);
      o.report.Err? && lib.isAddress(addr) ==> o.report.error == w.balance(c, addr).error
    ensures var c := ClientFor(s.active);
      o.report.Ok? ==>
        o.report.value == [
          "ETH balance",
          "Network: " + s.active.title,
          "Address: " + addr,
          "Balance: " + lib.formatEther(w.balance(c, addr).value) + " ETH",
          AddressLink(s.active, addr)]
  {
    match ToAddr(lib.isAddress, addr)
    case Err(e) => Outcome([], Err(e))
    case Ok(a) =>
      var c := ClientFor(s.active);
      var steps := [BuildClient(c), Request(c, GetBalance(a))];
      BuildThenRequest([], c, [Request(c, GetBalance(a))]);
      assert [] + [BuildClient(c)] + [Request(c, GetBalance(a))] == steps;
      match w.balance(c, a)
      case Err(e) => Outcome(steps, Err(e))
      case Ok(bal) =>
        Outcome(steps, Ok([
          "ETH balance",
          "Network: " + s.active.title,
          "Address: " + a,
          "Balance: " + lib.formatEther(bal) + " ETH",
          AddressLink(s.active, a)]))
  }

  /** The five ERC-20 replies once all of them have arrived. */
  datatype Erc20Batch = Erc20Batch(name: string, symbol: string, decimals: uint8, supply: uint256, balance: uint256)

  /** `Promise.all` over the five reads: the batch succeeds only when every read
      does, and otherwise fails with the error of one of the reads that failed;
      no partial batch is ever produced. */
  function JoinBatch(name: Result<string>, symbol: Result<string>, decimals: Result<uint8>,
                     supply: Result<uint256>, balance: Result<uint256>): (r: Result<Erc20Batch>)
    ensures r.Ok? <==> name.Ok? && symbol.Ok? && decimals.Ok? && supply.Ok? && balance.Ok?
    ensures r.Ok? ==> r.value == Erc20Batch(name.value, symbol.value, decimals.value, supply.value, balance.value)
    ensures r.Err? ==>
      || (name.Err? && r.error == name.error)
      || (symbol.Err? && r.error == symbol.error)
      || (decimals.Err? && r.error == decimals.error)
      || (supply.Err? && r.error == supply.error)
      || (balance.Err? && r.error == balance.error)
  {
    var n :- name;
    var sym :- symbol;
    var d :- decimals;
    var total :- supply;
    var bal :- balance;
    Ok(Erc20Batch(n, sym, d, total, bal))
  }

  /** The five reads, in the order the batch lists them. */
  function Erc20Reads(c: Client, token: string, holder: string): (rs: seq<Step>)
    ensures |rs| == 5
    ensures forall i :: 0 <= i < |rs| ==> rs[i].Request? && rs[i].on == c
    ensures forall i :: 0 <= i < |rs| ==> rs[i].call.ReadContract? && rs[i].call.token == token
    ensures (set i | 0 <= i < |rs| :: rs[i].call.fn) ==
      {Name, Symbol, Decimals, TotalSupply, BalanceOf(holder)}
  {
    var rs := [Request(c, ReadContract(token, Name)),
               Request(c, ReadContract(token, Symbol)),
               Request(c, ReadContract(token, Decimals)),
               Request(c, ReadContract(token, TotalSupply)),
               Request(c, ReadContract(token, BalanceOf(holder)))];
    var fns := set i | 0 <= i < |rs| :: rs[i].call.fn;
    assert rs[0].call.fn in fns && rs[1].call.fn in fns && rs[2].call.fn in fns;
    assert rs[3].call.fn in fns && rs[4].call.fn in fns;
    rs
  }

  /** `readErc20`: validate the token, then the holder, then issue the five reads on one
      client for the active entry and join them; supply and balance are both formatted
      with the decimals that came back in the same batch. */
  function ReadErc20(s: Session, lib: Lib, w: World, token: string, holder: string): (o: Outcome)
    ensures !lib.isAddress(token) ==> o == Outcome([], Err(InvalidAddress))
    ensures !lib.isAddress(holder) ==> o == Outcome([], Err(InvalidAddress))
    ensures var c := ClientFor(s.active);
      lib.isAddress(token) && lib.isAddress(holder) ==>
        o.steps == [BuildClient(c)] + Erc20Reads(c, token, holder)
    ensures BoundTo(o.steps, s.active) && Validated(o.steps, lib.isAddress) && ClientBuiltFirst(o.steps)
    ensures var c := ClientFor(s.active);
      o.report.Ok? <==>
        && lib.isAddress(token) && lib.isAddress(holder)
        && w.name(c, token).Ok? && w.symbol(c, token).Ok? && w.decimals(c, token).Ok?
        && w.totalSupply(c, token).Ok? && w.balanceOf(c, token, holder).Ok?
    ensures var c := ClientFor(s.active);
      o.report.Err? && lib.isAddress(token) && lib.isAddress(holder) ==>
        || (w.name(c, token).Err? && o.report.error == w.name(c, token).error)
        || (w.symbol(c, token).Err? && o.report.error == w.symbol(c, token).error)
        || (w.decimals(c, token).Err? && o.report.error == w.decimals(c, token).error)
        || (w.totalSupply(c, token).Err? && o.report.error == w.totalSupply(c, token).error)
        || (w.balanceOf(c, token, holder).Err? && o.report.error == w.balanceOf(c, token, holder).error)
    ensures var c := ClientFor(s.active);
      o.report.Ok? ==>
        var d := w.decimals(c, token).value;
        o.report.value == [
          "ERC-20 snapshot",
          "Network: " + s.active.title,
          "Token: " + token,
          "Holder: " + holder,
          "Name: " + w.name(c, token).value,
          "Symbol: " + w.symbol(c, token).value,
          "Total supply: " + lib.formatUnits(w.totalSupply(c, token).value, d),
          "Holder balance: " + lib.formatUnits(w.balanceOf(c, token, holder).value, d),
          AddressLink(s.active, token)]
  {
    match ToAddr(lib.isAddress, token)
    case Err(e) => Outcome([], Err(e))
    case Ok(t) =>
      match ToAddr(lib.isAddress, holder)
      case Err(e) => Outcome([], Err(e))
      case Ok(h) =>
        var c := ClientFor(s.active);
        var batchReads := Erc20Reads(c, t, h);
        var steps := [BuildClient(c)] + batchReads;
        BuildThenRequest([], c, batchReads);
        assert [] + [BuildClient(c)] + batchReads == steps;
        match JoinBatch(w.name(c, t), w.symbol(c, t), w.decimals(c, t), w.totalSupply(c, t), w.balanceOf(c, t, h))
        case Err(e) => Outcome(steps, Err(e))
        case Ok(batch) =>
          var d := batch.decimals;
          Outcome(steps, Ok([
            "ERC-20 snapshot",
            "Network: " + s.active.title,
            "Token: " + t,
            "Holder: " + h,
            "Name: " + batch.name,
            "Symbol: " + batch.symbol,
            "Total supply: " + lib.formatUnits(batch.supply, d),
            "Holder balance: " + lib.formatUnits(batch.balance, d),
            AddressLink(s.active, t)]))
  }
}
