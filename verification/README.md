# Aurora Slipstream — network-aware query layer, in Dafny

Aurora Slipstream is a single-page client for Base. It connects a Coinbase wallet,
switches between two networks (Base Sepolia and Base Mainnet), and shows a native balance,
the latest block, or an ERC-20 snapshot read over JSON-RPC. This project models the logic the
application implements itself, all of it in `app/aurora-slipstream.ts`:

- the two-entry network registry and the one mutable active selection, with its toggle
  (`networks.dfy`, module `Networks`);
- the address gate `toAddr` (`addresses.dfy`, module `Addresses`);
- the clients and wallet providers bound to the active entry, and the trace of steps a
  query performs: wallet requests, client builds and RPC reads (`rpc.dfy`, module `Rpc`);
- the four queries `connectWallet`, `latestBlock`, `readEth` and `readErc20`, including the
  all-or-nothing join of the five ERC-20 reads (`queries.dfy`, module `Queries`);
- properties that relate several calls (`properties.dfy`, module `Properties`).

Support modules: `results.dfy` (`Results`: the error values and a `Result` usable with `:-`)
and `decimal.dfy` (`Decimal`: the base-10 text a template literal gives a bigint, as used for
block numbers, timestamps and gas).

Each query is a pure function from the active selection (`Session`), the library functions
(`Lib`), the replies of the outside world (`World`) and the user's input, to an `Outcome`: the
steps performed, in order, and either the report lines or the error the query ends with.
`Lib` holds viem's `isAddress`, `formatEther` and `formatUnits` and the display of
`parseInt(chainHex, 16)` as uninterpreted functions. `World` gives each wallet and RPC reply
as a function of the provider or client asked and of the arguments. This makes "which network"
and "which token's decimals" visible in the contracts. Every reply may be a rejection.

The registry field `label` is called `title` in the model, because `label` is a Dafny keyword.

Notes on the code:

- `connectWallet` sends the wallet's `eth_chainId` request and builds the RPC client before it
  checks the account address (line 81): `client().getBalance({ address: toAddr(address) })`
  evaluates `client()` before its argument. Only the balance read comes after the check.
- An address that passes the gate is returned unchanged. It is not normalised.
- The "no address" test is `!address` (line 78). So an empty-string first account counts as no
  account, just like a missing or empty account list.

## Model

| member | source | states |
|---|---|---|
| Networks.RegistryShape | app/aurora-slipstream.ts:21-36 | the registry has exactly two entries, Base Sepolia (84532) first and Base Mainnet (8453) second, and their chain ids are distinct |
| Networks.Init | app/aurora-slipstream.ts:21-38 | at load time the active entry is the first registry entry: Base Sepolia, chain id 84532 |
| Networks.Toggle | app/aurora-slipstream.ts:144-147 | the new active entry is always a registry entry; it is the mainnet entry exactly when the old one had chain id 84532, and the first entry otherwise; from a registered state the chain id changes; the printed line names the new entry |
| Networks.ToggleInvolution | app/aurora-slipstream.ts:145 | toggling twice from a registered state restores it |
| Networks.ToggleNeedsRegistry | app/aurora-slipstream.ts:145 | from a selection outside the registry, two toggles do not come back; the involution depends on the registry invariant |
| Networks.TogglesAlternate | app/aurora-slipstream.ts:144-145 | from a registered state, any number of toggles stays in the registry; an even number restores the state and an odd number gives the other entry |
| Networks.ActiveAfterToggles | app/aurora-slipstream.ts:144-145 | from the load-time state, after n toggles the active entry is `NETWORKS[n % 2]` |
| Addresses.ToAddr | app/aurora-slipstream.ts:69-72 | the gate fails with "Invalid address" exactly when the address predicate rejects the input; on success it returns the input string unchanged |
| Decimal.ToDecimal | app/aurora-slipstream.ts:98-101 | a bigint interpolated into a report is a non-empty string of decimal digits with a leading zero only for 0 |
| Decimal.ParseToDecimal | app/aurora-slipstream.ts:98-101 | the rendered digits read back to the number |
| Decimal.ToDecimalInjective | app/aurora-slipstream.ts:101 | different block numbers render differently |
| Rpc.ClientFor | app/aurora-slipstream.ts:65-67 | a client is built from the entry's chain object and RPC endpoint; for a registry entry, no other registry entry has that endpoint, so the client talks only to the entry it was built for |
| Rpc.ProviderFor | app/aurora-slipstream.ts:75 | the wallet provider is created with the entry's RPC endpoint and chain id; for a registry entry, no other registry entry shares either of them |
| Rpc.ClientsDistinct | app/aurora-slipstream.ts:65-67 | after a toggle, the client and the provider built for the new entry differ from those of the old entry |
| Queries.FirstAccount | app/aurora-slipstream.ts:76-78 | there is an address exactly when the account list is present, non-empty and its first element is not the empty string; that address is the first element |
| Queries.ConnectWallet | app/aurora-slipstream.ts:74-91 | the first step is the accounts request; with no address the query stops right there with "No address returned", with no chain-id request and no balance read; a rejected accounts request ends it at the same point with that rejection; a rejected chain-id request ends it after two wallet requests with that rejection and no client build; a rejected balance read ends it after all four steps with that rejection; an invalid address ends it with "Invalid address" after the chain-id request and the client build but before any balance read; every step goes to the active entry; every RPC address has been validated; a report exists exactly when every reply succeeds and the address is valid; then the steps are accounts, chain id, client build, balance read, and the report names the active entry and links to its explorer's address page |
| Queries.LatestBlock | app/aurora-slipstream.ts:93-103 | one client build and one block read on the active entry; the report exists exactly when the read succeeds, else the query ends with the read's error; the report names the active entry and shows number, timestamp, gas used and the explorer's block link |
| Queries.ReadEth | app/aurora-slipstream.ts:105-115 | an invalid address ends the query with "Invalid address" and no steps at all; otherwise one client build and one balance read on the active entry; the report exists exactly when the read succeeds, names the active entry, formats the balance with `formatEther` and links to the address page |
| Queries.JoinBatch | app/aurora-slipstream.ts:122-128 | the joined batch succeeds exactly when all five reads succeed and then carries all five values; otherwise it fails with the error of one of the failed reads and no partial batch exists |
| Queries.Erc20Reads | app/aurora-slipstream.ts:121-128 | the batch is five contract reads, all on the same client and the token, and the functions read are exactly name, symbol, decimals, totalSupply and balanceOf(holder), each once |
| Queries.ReadErc20 | app/aurora-slipstream.ts:117-142 | an invalid token or holder ends the query with "Invalid address" before any step; otherwise one client for the active entry, then name, symbol, decimals, totalSupply and balanceOf(holder) on it; a report exists exactly when all five succeed, else the error is that of a failed read; supply and balance are both formatted with the decimals that this token returned on this client; the link is the token's address page |
| Properties.RequestAddressesPassGate | app/aurora-slipstream.ts:105-127 | every address carried by an RPC read of any of the four queries is one the gate accepts and hands back unchanged |
| Properties.AddressLinkRoundTrip | app/aurora-slipstream.ts:89 | an address link is the explorer root, then `/address/`, then exactly the address |
| Properties.AddressLinkInjective | app/aurora-slipstream.ts:113 | on one network, different addresses get different links |
| Properties.BlockLinkRoundTrip | app/aurora-slipstream.ts:101 | the last line of a latest-block report is the active explorer's `/block/` link, and its suffix is the digits of the block number the active endpoint returned |
| Properties.TokenCheckedFirst | app/aurora-slipstream.ts:118-119 | with an invalid token the outcome does not depend on the holder at all, and nothing is sent |
| Properties.QueriesFollowToggles | app/aurora-slipstream.ts:65-67 | after n toggles from load time, every step of every query talks to `NETWORKS[n % 2]` |
| Properties.NoStaleClientAfterToggle | app/aurora-slipstream.ts:144-145 | no step of a query issued after a toggle talks to the entry toggled away from |
| Properties.Erc20SnapshotScenario | app/aurora-slipstream.ts:131-141 | for a token answering "Test", "TST", 6, 5000000 and 2500000 on the load-time network, the report shows both amounts formatted with 6 decimals and links to the Sepolia explorer |
| Properties.Erc20DecimalsFailureScenario | app/aurora-slipstream.ts:122-128 | when only the decimals read fails, all five reads are still issued and the query ends with that error and no report |

## Left out

- DOM construction, styling, buttons, `print` and `mount` are UI plumbing. The model returns the lines a query would print. It does not model the `catch` that prints `String(e)`.
- The Coinbase wallet SDK is external I/O. Its replies to `eth_requestAccounts` and `eth_chainId` are inputs (`World.accounts`, `World.chainHex`). Creating the provider is folded into the steps that use it.
- viem's `formatUnits` and `formatEther` are abstract: no exact decimal formatting and no precision error is modelled.
- viem's `isAddress`, `formatEther`, `formatUnits`, `parseAbi`, `createPublicClient` and `http` are library code. They are uninterpreted (`Lib`), or an opaque record (`Client`). No decimal-formatting or checksum behaviour is claimed.
- `parseInt(chainHex, 16)` is a JavaScript number conversion used only for display. It is the uninterpreted `Lib.chainIdText`. `Number(decimals)` is the identity on a `uint8`.
- `Promise.all` scheduling is not modelled, only how the results combine.
- Queries.JoinBatch: its contract promises only that the error belongs to some failed read. `Promise.all` reports the rejection that settles first, and timing is not modelled. The body picks the first failure in argument order.
- A toggle clicked while a query is waiting on a reply is not modelled. The source reads `active` again after each `await`, so such a report would name the new network. The model takes one snapshot of the selection per query.
- A pending block with a null number is not modelled. `getBlock()` without arguments asks for the latest block, and the model takes number, timestamp and gas used as naturals.
