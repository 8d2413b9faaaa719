/** RPC clients, wallet providers, the trace of requests a query issues,
    and the replies the outside world gives to them. */
module Rpc {
  import opened Results
  import opened Networks

  /** Solidity `uint8`, the declared return type of `decimals()`. */
  type uint8 = x: int | 0 <= x < 0x100

  const UINT256_LIMIT: int := 0x1_0000000000000000000000000000000000000000000000000000000000000000

  /** Solidity `uint256`: balances and total supply. */
  type uint256 = x: int | 0 <= x < UINT256_LIMIT

  /** A read-only public client: the chain object and the HTTP endpoint it talks to. */
  datatype Client = Client(chain: ChainDef, rpc: string)

  /** `client()`: a fresh client for the given registry entry. */
  function ClientFor(net: Net): (c: Client)
    ensures c.chain == net.chain && c.rpc == net.rpc
    ensures net in NETWORKS ==> forall n :: n in NETWORKS && n != net ==> n.rpc != c.rpc
  {
    Client(net.chain, net.rpc)
  }

  /** The wallet SDK provider, created from the active entry's endpoint and chain id. */
  datatype Provider = Provider(rpc: string, chainId: nat)

  function ProviderFor(net: Net): (p: Provider)
    ensures p.rpc == net.rpc && p.chainId == net.chainId
    ensures net in NETWORKS ==> forall n :: n in NETWORKS && n != net ==> n.rpc != p.rpc && n.chainId != p.chainId
  {
    Provider(net.rpc, net.chainId)
  }

  /** The five functions of the ERC-20 read ABI. */
  datatype Erc20Fn = Name | Symbol | Decimals | TotalSupply | BalanceOf(holder: string)

  /** The RPC reads a client issues. */
  datatype Call =
    | GetBalance(address: string)
    | GetBlock
    | ReadContract(token: string, fn: Erc20Fn)

  datatype WalletMethod = EthRequestAccounts | EthChainId

  /** One observable step of a query, in the order the code performs them. */
  datatype Step =
    | WalletRequest(provider: Provider, ask: WalletMethod)
    | BuildClient(client: Client)
    | Request(on: Client, call: Call)

  /** The address arguments a call carries. */
  function CallAddresses(call: Call): (addrs: seq<string>)
    ensures call.GetBlock? ==> addrs == []
    ensures call.GetBalance? ==> addrs == [call.address]
    ensures call.ReadContract? ==> |addrs| >= 1 && addrs[0] == call.token
  {
    match call
    case GetBalance(a) => [a]
    case GetBlock => []
    case ReadContract(t, BalanceOf(h)) => [t, h]
    case ReadContract(t, _) => [t]
  }

  /** Every address an RPC step carries was accepted by the address predicate. */
  predicate Validated(steps: seq<Step>, isAddress: string -> bool) {
    forall i, k :: 0 <= i < |steps| && steps[i].Request? && 0 <= k < |CallAddresses(steps[i].call)| ==>
      isAddress(CallAddresses(steps[i].call)[k])
  }

  /** The provider or client of a step is the one the given entry yields. */
  predicate StepBoundTo(st: Step, net: Net) {
    match st
    case WalletRequest(p, _) => p == ProviderFor(net)
    case BuildClient(c) => c == ClientFor(net)
    case Request(c, _) => c == ClientFor(net)
  }

  /** Every step of a trace talks to the given registry entry. */
  predicate BoundTo(steps: seq<Step>, net: Net) {
    forall i :: 0 <= i < |steps| ==> StepBoundTo(steps[i], net)
  }

  /** Every RPC request goes through a client built earlier in the same trace. */
  predicate ClientBuiltFirst(steps: seq<Step>) {
    forall i :: 0 <= i < |steps| && steps[i].Request? ==> BuildClient(steps[i].on) in steps[..i]
  }

  /** Appending a client build followed by requests on that client keeps every
      request behind the build of its client. */
  lemma BuildThenRequest(pre: seq<Step>, c: Client, rest: seq<Step>)
    requires ClientBuiltFirst(pre)
    requires forall i :: 0 <= i < |rest| ==> rest[i].Request? && rest[i].on == c
    ensures ClientBuiltFirst(pre + [BuildClient(c)] + rest)
  {
    var all := pre + [BuildClient(c)] + rest;
    forall i | 0 <= i < |all| && all[i].Request?
      ensures BuildClient(all[i].on) in all[..i]
    {
      if i < |pre| {
        assert all[..i] == pre[..i];
      } else {
        assert all[..i][|pre|] == BuildClient(c);
      }
    }
  }

  /** The fields of a block the report shows. */
  datatype Block = Block(number: nat, timestamp: nat, gasUsed: nat)

  /** The replies of the wallet provider and of the RPC endpoints, as a function
      of who is asked and what is asked.  Each reply may be a rejection. */
  datatype World = World(
    accounts: Provider -> Result<Option<seq<string>>>,
    chainHex: Provider -> Result<string>,
    balance: (Client, string) -> Result<uint256>,
    block: Client -> Result<Block>,
    name: (Client, string) -> Result<string>,
    symbol: (Client, string) -> Result<string>,
    decimals: (Client, string) -> Result<uint8>,
    totalSupply: (Client, string) -> Result<uint256>,
    balanceOf: (Client, string, string) -> Result<uint256>
  )

  /** Distinct registry entries give distinct clients, so a client built after
      a toggle never talks to the endpoint of the entry toggled away from. */
  lemma ClientsDistinct(s: Session)
    requires Registered(s)
    ensures ClientFor(Toggle(s).next.active) != ClientFor(s.active)
    ensures ProviderFor(Toggle(s).next.active) != ProviderFor(s.active)
  {
  }
}
