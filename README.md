# Wallet-session store of a voting front-end, in Dafny

This project models the store module `src/store/modules/web3.ts`. The module keeps
the wallet session of the application: the connected `account`, its resolved
display `name`, and the active `network`. It also keeps a shared network table
(`networks`), which gains an "Unknown" entry the first time an unfamiliar chain
id is seen. The module changes state through two mutations:

- `HANDLE_CHAIN_CHANGED`: insert the chain id into the table if it is absent, then
  select that entry.
- `WEB3_SET`: write each key of a payload into the session record.

Its actions `login`, `logout` and `loadProvider`, and the `accountsChanged`
handler that `loadProvider` registers, are built from these two mutations.

Layout:

- `wrappers.dfy` (`Wrappers`): `Option`. `None` stands for JavaScript's `null`.
- `chain_keys.dfy` (`ChainKeys`): turning a chain id into a table key. The table
  is a JavaScript object, so `networks[1]` and `networks["1"]` are the same slot.
  All keys are strings here, and a numeric chain id is turned into a key by
  `KeyOf`, its decimal rendering. `KeyOf` is proved injective through its inverse
  `ParseKey`.
- `web3_spec.dfy` (`Web3Spec`): the table and the session record as one value
  (`SessionState`). Each mutation and action is a function from the old state to
  the new one, and the properties the module promises are proved about these
  functions.
- `web3_store.dfy` (`Web3Store`): class `WalletSession`. Its fields are the table,
  the default key and the three session fields, and its methods update them in
  place, as the source does:
  - `HandleChainChanged` assigns into the map and then sets `network`.
  - `Web3Set` loops over the payload entries.
  - The actions call these two methods in the order the source uses.

  Each method is proved to end in the state its `Web3Spec` function computes, and
  it also states the promised effects directly: the new table and `network`, the
  committed `account` and `name`, and how the returned promise settles.

The foreign calls are inputs to the model:

- An `Outcome` gives what the provider did: the joint network/account fetch
  failed, or it returned a chain id and an account list. In the second case it
  also gives what the reverse-name lookup did (`LookupOk`, possibly with `null`,
  or `LookupFailed`).
- A `LoginOutcome` gives what the wallet connector did.

A method returns `Resolved` or `Rejected` for the promise the action returns.

Behaviour the model follows, where a reader might expect otherwise:

- A failure anywhere in `loadProvider` before the name lookup happens before any
  commit. So on `FetchFailed` the table and `network` are unchanged, and only
  `account` and `name` become `null`. This includes a `loadProvider` called before
  any login, since `auth` is then unset.
- A successful load with an empty account list commits `account = null`. Its
  `name` is still the lookup's answer, or `""`. So `account == null` does not
  imply `name == null`.
- The absence test `!networks[chainId]` is modelled as the key being absent from
  the table. Every table entry is an object, and objects are truthy.
- The synthesized entry copies every field of the default entry, including fields
  such as its key, RPC list and explorer (`Descriptor.other`). Only `chainId`,
  `name`, `network` and `unknown` are overridden.

## Model

| member | source | states |
|---|---|---|
| `ChainKeys.Decimal` | src/store/modules/web3.ts:28 | `KeyOf` renders a chain id as the property key `networks[chainId]` looks up (a `-` sign, then `Decimal`); the key text of a non-negative chain id is a non-empty run of decimal digits, with a leading zero exactly when the id is 0 |
| `ChainKeys.KeyRoundTrip` | src/store/modules/web3.ts:28 | reading the key of any chain id back as a number gives that chain id |
| `ChainKeys.KeyInjective` | src/store/modules/web3.ts:28-29 | two chain ids with the same table key are the same chain id, so distinct chains never share a slot |
| `Web3Spec.Initial` | src/store/modules/web3.ts:20-24 | the initial state has `account` and `name` null and `network` equal to the default key's table entry |
| `Web3Spec.ChainChanged` | src/store/modules/web3.ts:27-39 | afterwards the chain's key is in the table and `network` is its entry; the table's keys are the old keys plus this one; every old entry is unchanged; `account` and `name` are unchanged |
| `Web3Spec.ChainChangedSynthesizes` | src/store/modules/web3.ts:28-35 | for an absent chain id, the new entry (`UnknownNetwork`, the spread literal) is the default entry with `chainId = c`, `name = "Unknown"`, `network = "unknown"`, `unknown = true`, and all its other fields copied |
| `Web3Spec.ChainChangedReuses` | src/store/modules/web3.ts:28-37 | for a chain id already in the table, the table is unchanged and `network` becomes the stored entry |
| `Web3Spec.ChainChangedIdempotent` | src/store/modules/web3.ts:27-39 | handling the same chain id twice gives the same table and session as handling it once |
| `Web3Spec.UnknownChainsKeptApart` | src/store/modules/web3.ts:28-37 | two different unknown chain ids handled in turn get two separate entries, each carrying its own chain id, and the second is selected |
| `Web3Spec.MainnetScenario` | src/store/modules/web3.ts:20-37 | with default key "1" holding Mainnet: the initial network is Mainnet; chain 999 yields `{chainId: 999, name: "Unknown", network: "unknown", unknown: true}` plus Mainnet's other fields; a second 999 changes nothing |
| `Web3Spec.Write` | src/store/modules/web3.ts:42 | one field write stores the given value in that field and leaves the other fields and the table unchanged |
| `Web3Spec.Patched` | src/store/modules/web3.ts:40-44 | a payload leaves the table unchanged, and every field it does not name keeps its old value |
| `Web3Spec.PatchedWrites` | src/store/modules/web3.ts:40-44 | when a payload names each field at most once (as an object's keys do), every field it names holds its payload value afterwards |
| `Web3Spec.Logout` | src/store/modules/web3.ts:58-61 | logout makes `account` and `name` null and leaves the table and `network` unchanged |
| `Web3Spec.FirstAccount` | src/store/modules/web3.ts:82 | the committed account is null exactly when the fetched list is empty, and otherwise is its first element |
| `Web3Spec.NameAfter` | src/store/modules/web3.ts:83-88 | the committed name is the lookup's answer, or `""` when the lookup threw |
| `Web3Spec.LoadProvider` | src/store/modules/web3.ts:62-94 | rejects exactly on a fetch failure, and then only `account` and `name` are changed, both to null; on success the table is the one handling the fetched chain id gives, `network` is that chain's entry, `account` is the first fetched account or null, and `name` is the lookup's answer or `""` |
| `Web3Spec.LoadProviderGrowsTable` | src/store/modules/web3.ts:62-94 | a load never removes a table entry and never changes an existing one |
| `Web3Spec.AccountsChanged` | src/store/modules/web3.ts:69-74 | an empty account list leaves the state unchanged and resolves |
| `Web3Spec.AccountsChangedIsReload` | src/store/modules/web3.ts:69-74 | with a non-empty list, committing its first account and then reloading ends in the same state and settlement as one reload |
| `Web3Spec.Login` | src/store/modules/web3.ts:48-57 | a failed connector login rejects and changes nothing in this module; a login without a provider resolves and changes nothing; with a provider, login ends in exactly the state and settlement of `LoadProvider` with the load's outcome |
| `Web3Store.WalletSession.constructor` | src/store/modules/web3.ts:20-24 | builds the initial state: `account` and `name` null, `network` the default key's entry |
| `Web3Store.WalletSession.HandleChainChanged` | src/store/modules/web3.ts:27-39 | updates the table in place: inserts the Unknown clone only if the key is absent, otherwise keeps the table; `network` becomes the key's entry; `account` and `name` are unchanged; the new state agrees with `ChainChanged` |
| `Web3Store.WalletSession.Web3Set` | src/store/modules/web3.ts:40-44 | the loop writes the payload entries in turn; the table is unchanged; fields the payload names get its values; fields it does not name keep their old values; the new state agrees with `Patched` |
| `Web3Store.WalletSession.Logout` | src/store/modules/web3.ts:58-61 | `account` and `name` become null, and the table and `network` are unchanged |
| `Web3Store.WalletSession.LoadProvider` | src/store/modules/web3.ts:62-94 | performs the chain change and the final commit in the source's order; it rejects exactly on a fetch failure, and then clears `account` and `name`; on success `network`, `account` and `name` are as described above |
| `Web3Store.WalletSession.AccountsChanged` | src/store/modules/web3.ts:69-74 | with a non-empty list it commits the first account and then reloads, ending where one reload ends: rejected exactly on a fetch failure with `account` and `name` null, otherwise with the fetched chain's entry, first account and looked-up name; with an empty list nothing changes; the end state agrees with `AccountsChanged` |
| `Web3Store.WalletSession.Login` | src/store/modules/web3.ts:48-57 | changes nothing unless the connector succeeded and yielded a provider, and rejects without a reload exactly when the connector failed; with a provider it ends exactly where `LoadProvider` with the load's outcome ends; the end state agrees with `Login` |

## Left out

- The wallet connector (`getInstance`, `auth.login`, `$auth.logout`), the `Web3Provider` wrapper and `getProvider('1')` are foreign calls. Their results are inputs to the model (`Outcome`, `Lookup`, `LoginOutcome`), and the fire-and-forget `$auth.logout()` is not modelled. `Logout` assumes that call returns normally: if it threw synchronously, the action would reject before its commit and leave `account` and `name` as they were.
- Registering the `chainChanged` and `accountsChanged` listeners and calling `removeAllListeners` is event plumbing. The handlers' effects are modelled as the methods `HandleChainChanged` and `AccountsChanged`.
- Asynchrony is left out. This covers the concurrent `Promise.all` fetch and a nested `loadProvider` interleaving with one still in flight. Each action runs atomically with a given outcome.
- `parseInt(formatUnits(chainId, 0))` is library number formatting. The chain id arrives as an integer.
- Chain ids are unbounded integers. JavaScript numbers are doubles, and beyond 2^53 or in exponent notation their key text differs from `KeyOf`.
- `Vue.set` reactivity and `console.debug`/`console.error` logging are left out.
- `Vue.set(_state, 'network', networks[chainId])` makes the state share the table's entry object. The model compares entries by value instead. This is equivalent here because no code changes an entry after it is stored.
- `WEB3_SET` payload keys other than `account`, `name` and `network` are left out. The source would add such keys as new state fields, but no caller in the module does so.
- The `wsProvider` block listening for `'block'` is dead code: `wsProvider` is never assigned.
- `login`'s `authLoading` flag is left out. It is written through a `SET` mutation of another store module, which is not part of this model. So the flag staying `true` when the connector throws is not modelled either.
- Reading the default network key from `VUE_APP_DEFAULT_NETWORK`, or else taking the table's first key, is left out. The key is a constructor parameter and must be a key of the table.
