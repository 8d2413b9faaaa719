/** The fixed two-entry network registry and the single mutable selection. */
module Networks {

  /** The viem chain object an entry carries; only its identity matters here. */
  datatype ChainDef = BaseSepoliaChain | BaseChain

  /** One registry entry: chain object, chain id, RPC endpoint, explorer root and display title (the `label` field; `label` is a Dafny keyword). */
  datatype Net = Net(chain: ChainDef, chainId: nat, rpc: string, explorer: string, title: string)

  /** The chain id the toggle tests for. */
  const SEPOLIA_CHAIN_ID: nat := 84532

  const BaseSepolia: Net :=
    Net(BaseSepoliaChain, 84532, "https://sepolia.base.org", "https://sepolia.basescan.org", "Base Sepolia")

  const BaseMainnet: Net :=
    Net(BaseChain, 8453, "https://mainnet.base.org", "https://basescan.org", "Base Mainnet")

  /** The registry, in declaration order: test network first. */
  const NETWORKS: seq<Net> := [BaseSepolia, BaseMainnet]

  /** The process-wide state: which registry entry is active. */
  datatype Session = Session(active: Net)

  predicate Registered(s: Session) {
    s.active in NETWORKS
  }

  /** The registry has two entries with distinct chain ids, test network first. */
  lemma RegistryShape()
    ensures |NETWORKS| == 2
    ensures NETWORKS[0].chainId == 84532 && NETWORKS[0].title == "Base Sepolia"
    ensures NETWORKS[1].chainId == 8453 && NETWORKS[1].title == "Base Mainnet"
    ensures forall i, j :: 0 <= i < j < |NETWORKS| ==> NETWORKS[i].chainId != NETWORKS[j].chainId
  {
  }

  /** The state at load time: the first registry entry is active. */
  function Init(): (s: Session)
    ensures Registered(s)
    ensures s.active == NETWORKS[0]
    ensures s.active.chainId == SEPOLIA_CHAIN_ID && s.active.title == "Base Sepolia"
  {
    Session(NETWORKS[0])
  }

  /** The new state after a toggle and the lines it prints. */
  datatype Toggled = Toggled(next: Session, lines: seq<string>)

  /** Flip the selection: the Sepolia entry goes to the mainnet entry, anything else to the first entry. */
  function Toggle(s: Session): (t: Toggled)
    ensures Registered(t.next)
    ensures t.next.active == NETWORKS[1] <==> s.active.chainId == SEPOLIA_CHAIN_ID
    ensures t.next.active == NETWORKS[0] <==> s.active.chainId != SEPOLIA_CHAIN_ID
    ensures Registered(s) ==> t.next.active.chainId != s.active.chainId
    ensures t.lines == ["Switched to " + t.next.active.title + ". Reconnect wallet."]
  {
    var next := if s.active.chainId == SEPOLIA_CHAIN_ID then NETWORKS[1] else NETWORKS[0];
    Toggled(Session(next), ["Switched to " + next.title + ". Reconnect wallet."])
  }

  /** Toggling twice from a registered state gives the state back. */
  lemma ToggleInvolution(s: Session)
    requires Registered(s)
    ensures Toggle(Toggle(s).next).next == s
  {
  }

  /** Outside the registry the flip is not an involution: both toggles land on registry entries. */
  lemma ToggleNeedsRegistry(s: Session)
    requires !Registered(s)
    ensures Toggle(Toggle(s).next).next != s
  {
  }

  /** The state after `n` toggles. */
  function AfterToggles(s: Session, n: nat): Session
    decreases n
  {
    if n == 0 then s else Toggle(AfterToggles(s, n - 1)).next
  }

  /** From a registered state, an even number of toggles restores it and an odd
      number lands on the other entry; the selection never leaves the registry. */
  lemma {:induction false} TogglesAlternate(s: Session, n: nat)
    requires Registered(s)
    ensures Registered(AfterToggles(s, n))
    ensures AfterToggles(s, n) == if n % 2 == 0 then s else Toggle(s).next
    decreases n
  {
    if n > 0 {
      TogglesAlternate(s, n - 1);
      if (n - 1) % 2 == 0 {
        assert AfterToggles(s, n) == Toggle(s).next;
      } else {
        ToggleInvolution(s);
      }
    }
  }

  /** Starting from the load-time state, after `n` toggles the active entry is `NETWORKS[n % 2]`. */
  lemma {:induction false} ActiveAfterToggles(n: nat)
    ensures AfterToggles(Init(), n).active == NETWORKS[n % 2]
    decreases n
  {
    if n > 0 {
      ActiveAfterToggles(n - 1);
    }
  }
}
