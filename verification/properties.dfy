/** Properties relating several calls: explorer links read back, address checks
    run before anything else, and queries follow the toggle. */
module Properties {
  import opened Results
  import opened Networks
  import opened Addresses
  import opened Decimal
  import opened Rpc
  import opened Queries

  /** Every address an RPC read of any query carries is one the gate accepts
      and hands back unchanged. */
  lemma RequestAddressesPassGate(s: Session, lib: Lib, w: World, addr: string, token: string)
    ensures forall o :: o in [ConnectWallet(s, lib, w), LatestBlock(s, lib, w),
                              ReadEth(s, lib, w, addr), ReadErc20(s, lib, w, token, addr)] ==>
      forall i, k :: 0 <= i < |o.steps| && o.steps[i].Request? && 0 <= k < |CallAddresses(o.steps[i].call)| ==>
        var a := CallAddresses(o.steps[i].call)[k];
        ToAddr(lib.isAddress, a) == Ok(a)
  {
  }

  /** An address link is the explorer root, `/address/`, then exactly the address. */
  lemma AddressLinkRoundTrip(net: Net, a: string)
    ensures var prefix := net.explorer + "/address/";
      var link := AddressLink(net, a);
      |prefix| <= |link| && link[..|prefix|] == prefix && link[|prefix|..] == a
  {
  }

  /** On one network, different addresses get different links. */
  lemma AddressLinkInjective(net: Net, a: string, b: string)
    requires AddressLink(net, a) == AddressLink(net, b)
    ensures a == b
  {
    AddressLinkRoundTrip(net, a);
    AddressLinkRoundTrip(net, b);
  }

  /** The last line of a latest-block report links to the block the active
      network's endpoint reported: the number can be read back from the link. */
  lemma BlockLinkRoundTrip(s: Session, lib: Lib, w: World)
    requires LatestBlock(s, lib, w).report.Ok?
    ensures var lines := LatestBlock(s, lib, w).report.value;
      var prefix := s.active.explorer + "/block/";
      var link := lines[|lines| - 1];
      && |prefix| <= |link|
      && link[..|prefix|] == prefix
      && AllDigits(link[|prefix|..])
      && ParseDecimal(link[|prefix|..]) == w.block(ClientFor(s.active)).value.number
  {
    var n := w.block(ClientFor(s.active)).value.number;
    var prefix := s.active.explorer + "/block/";
    var link := BlockLink(s.active, n);
    assert link[|prefix|..] == ToDecimal(n);
    ParseToDecimal(n);
  }

  /** An invalid token address decides the outcome of an ERC-20 query on its
      own: the holder is never looked at, and nothing is sent. */
  lemma TokenCheckedFirst(s: Session, lib: Lib, w: World, token: string, holder1: string, holder2: string)
    requires !lib.isAddress(token)
    ensures ReadErc20(s, lib, w, token, holder1) == ReadErc20(s, lib, w, token, holder2)
    ensures ReadErc20(s, lib, w, token, holder1).steps == []
  {
  }

  /** After `n` toggles from load time, every step of every query talks to `NETWORKS[n % 2]`. */
  lemma QueriesFollowToggles(n: nat, lib: Lib, w: World, addr: string, token: string)
    ensures var s := AfterToggles(Init(), n);
      && BoundTo(ConnectWallet(s, lib, w).steps, NETWORKS[n % 2])
      && BoundTo(LatestBlock(s, lib, w).steps, NETWORKS[n % 2])
      && BoundTo(ReadEth(s, lib, w, addr).steps, NETWORKS[n % 2])
      && BoundTo(ReadErc20(s, lib, w, token, addr).steps, NETWORKS[n % 2])
  {
    ActiveAfterToggles(n);
  }

  /** No step of a query issued after a toggle talks to the entry toggled away from. */
  lemma NoStaleClientAfterToggle(s: Session, lib: Lib, w: World, addr: string, token: string)
    requires Registered(s)
    ensures var t := Toggle(s).next;
      && (forall st :: st in ConnectWallet(t, lib, w).steps ==> !StepBoundTo(st, s.active))
      && (forall st :: st in LatestBlock(t, lib, w).steps ==> !StepBoundTo(st, s.active))
      && (forall st :: st in ReadEth(t, lib, w, addr).steps ==> !StepBoundTo(st, s.active))
      && (forall st :: st in ReadErc20(t, lib, w, token, addr).steps ==> !StepBoundTo(st, s.active))
  {
    ClientsDistinct(s);
  }

  /** A node whose ERC-20 contract answers "Test", "TST", 6 decimals, a supply of
      5000000 and a holder balance of 2500000 — or rejects the decimals read. */
  function TestTokenWorld(decimalsFails: bool): World {
    World(
      p => Err(Rejected("no wallet")),
      p => Err(Rejected("no wallet")),
      (c, a) => Ok(0),
      c => Err(Rejected("no block")),
      (c, t) => Ok("Test"),
      (c, t) => Ok("TST"),
      (c, t) => if decimalsFails then Err(Rejected("decimals reverted")) else Ok(6),
      (c, t) => Ok(5000000),
      (c, t, h) => Ok(2500000))
  }

  /** On the load-time network the snapshot reports the token's name and symbol,
      formats both amounts with 6 decimals and links to the test explorer. */
  lemma Erc20SnapshotScenario(lib: Lib, token: string, holder: string)
    requires lib.isAddress(token) && lib.isAddress(holder)
    ensures ReadErc20(Init(), lib, TestTokenWorld(false), token, holder).report == Ok([
      "ERC-20 snapshot",
      "Network: Base Sepolia",
      "Token: " + token,
      "Holder: " + holder,
      "Name: Test",
      "Symbol: TST",
      "Total supply: " + lib.formatUnits(5000000, 6),
      "Holder balance: " + lib.formatUnits(2500000, 6),
      "https://sepolia.basescan.org/address/" + token])
  {
    var w := TestTokenWorld(false);
    var c := ClientFor(Init().active);
    assert w.decimals(c, token) == Ok(6);
    assert "Network: " + Init().active.title == "Network: Base Sepolia";
    assert "Name: " + w.name(c, token).value == "Name: Test";
    assert "Symbol: " + w.symbol(c, token).value == "Symbol: TST";
    assert AddressLink(Init().active, token) == "https://sepolia.basescan.org/address/" + token;
  }

  /** When only the decimals read fails, all five reads are still issued and the
      query ends with that read's error and no report. */
  lemma Erc20DecimalsFailureScenario(lib: Lib, token: string, holder: string)
    requires lib.isAddress(token) && lib.isAddress(holder)
    ensures var o := ReadErc20(Init(), lib, TestTokenWorld(true), token, holder);
      && |o.steps| == 6
      && o.report == Err(Rejected("decimals reverted"))
  {
  }
}
