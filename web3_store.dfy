/**
  The store module of `src/store/modules/web3.ts` as an object: the shared
  network table and the session record are fields that the mutations and
  actions update in place. Every method is proved to move the object from
  `old(State())` to the state the matching function of `Web3Spec` computes,
  and states the effects the module promises directly as well.
*/
module Web3Store {
  import opened Wrappers
  import opened ChainKeys
  import opened Web3Spec

  class WalletSession {
    /** The shared `networks` table, extended in place with unknown chains. */
    var networks: map<string, Descriptor>
    /** The configured default network key. */
    const defaultNetwork: string
    var account: Option<string>
    var name: Option<string>
    var network: Descriptor

    ghost predicate Valid()
      reads this
    {
      defaultNetwork in networks
    }

    ghost function State(): SessionState
      reads this
    {
      SessionState(networks, account, name, network)
    }

    /** The module's initial `state`, built against the given table. */
    constructor (table: map<string, Descriptor>, defaultKey: string)
      requires defaultKey in table
      ensures Valid() && defaultNetwork == defaultKey
      ensures State() == Initial(table, defaultKey)
      ensures account == None && name == None && network == table[defaultKey]
    {
      networks := table;
      defaultNetwork := defaultKey;
      account := None;
      name := None;
      network := table[defaultKey];
    }

    /** The `HANDLE_CHAIN_CHANGED` mutation. */
    method HandleChainChanged(c: int)
      requires Valid()
      modifies this
      ensures Valid()
      ensures State() == ChainChanged(old(State()), defaultNetwork, c)
      ensures KeyOf(c) in networks && network == networks[KeyOf(c)]
      ensures KeyOf(c) in old(networks) ==> networks == old(networks)
      ensures KeyOf(c) !in old(networks) ==>
        networks == old(networks)[KeyOf(c) := UnknownNetwork(old(networks)[defaultNetwork], c)]
      ensures account == old(account) && name == old(name)
    {
      var k := KeyOf(c);
      if k !in networks {
        networks := networks[k := UnknownNetwork(networks[defaultNetwork], c)];
      }
      network := networks[k];
    }

    /** The `WEB3_SET` mutation: each payload entry is written in turn. */
    method Web3Set(payload: seq<Entry>)
      requires Valid()
      modifies this
      ensures Valid()
      ensures State() == Patched(old(State()), payload)
      ensures networks == old(networks)
      ensures DistinctFields(payload) ==> forall i :: 0 <= i < |payload| ==> Holds(State(), payload[i])
      ensures forall f :: f !in Fields(payload) ==> Agrees(State(), old(State()), f)
    {
      var i := 0;
      while i < |payload|
        invariant 0 <= i <= |payload|
        invariant State() == Patched(old(State()), payload[..i])
      {
        match payload[i] {
          case AccountTo(a) => account := a;
          case NameTo(n) => name := n;
          case NetworkTo(d) => network := d;
        }
        assert payload[..i + 1][..i] == payload[..i];
        i := i + 1;
      }
      assert payload[..i] == payload;
      if DistinctFields(payload) {
        PatchedWrites(old(State()), payload);
      }
    }

    /** The `logout` action's effect on this module: the session is cleared. */
    method Logout()
      requires Valid()
      modifies this
      ensures Valid()
      ensures State() == Web3Spec.Logout(old(State()))
      ensures account == None && name == None
      ensures networks == old(networks) && network == old(network)
    {
      Web3Set([AccountTo(None), NameTo(None)]);
    }

    /** The `loadProvider` action, with the provider's behaviour given as `o`. */
    method LoadProvider(o: Outcome) returns (settled: Settled)
      requires Valid()
      modifies this
      ensures Valid()
      ensures Step(State(), settled) == Web3Spec.LoadProvider(old(State()), defaultNetwork, o)
      ensures settled == Rejected <==> o.FetchFailed?
      ensures o.FetchFailed? ==> account == None && name == None
      ensures o.Fetched? ==>
        && network == networks[KeyOf(o.chainId)]
        && account == FirstAccount(o.accounts)
        && name == NameAfter(o.lookup)
    {
      match o
      case FetchFailed =>
        Web3Set([AccountTo(None), NameTo(None)]);
        settled := Rejected;
      case Fetched(c, accounts, lookup) =>
        HandleChainChanged(c);
        var first := if |accounts| > 0 then Some(accounts[0]) else None;
        var found := Some("");
        if lookup.LookupOk? {
          found := lookup.found;
        }
        Web3Set([AccountTo(first), NameTo(found)]);
        settled := Resolved;
    }

    /** The `accountsChanged` handler that `loadProvider` registers. */
    method AccountsChanged(accounts: seq<string>, o: Outcome) returns (settled: Settled)
      requires Valid()
      modifies this
      ensures Valid()
      ensures Step(State(), settled) == Web3Spec.AccountsChanged(old(State()), defaultNetwork, accounts, o)
      ensures |accounts| == 0 ==> State() == old(State()) && settled == Resolved
      ensures |accounts| > 0 ==>
        && Step(State(), settled) == Web3Spec.LoadProvider(old(State()), defaultNetwork, o)
        && (settled == Rejected <==> o.FetchFailed?)
        && (o.FetchFailed? ==> account == None && name == None)
        && (o.Fetched? ==> network == networks[KeyOf(o.chainId)]
                           && account == FirstAccount(o.accounts) && name == NameAfter(o.lookup))
    {
      if |accounts| != 0 {
        AccountsChangedIsReload(State(), defaultNetwork, accounts, o);
        Web3Set([AccountTo(Some(accounts[0]))]);
        settled := LoadProvider(o);
      } else {
        settled := Resolved;
      }
    }

    /** The `login` action's effect on this module, with the connector's behaviour given as `o`. */
    method Login(o: LoginOutcome) returns (settled: Settled)
      requires Valid()
      modifies this
      ensures Valid()
      ensures Step(State(), settled) == Web3Spec.Login(old(State()), defaultNetwork, o)
      ensures !o.ConnectedWithProvider? ==> State() == old(State())
      ensures o.ConnectorFailed? <==> settled == Rejected && !o.ConnectedWithProvider?
      ensures o.ConnectedWithProvider? ==>
        Step(State(), settled) == Web3Spec.LoadProvider(old(State()), defaultNetwork, o.load)
    {
      match o
      case ConnectorFailed =>
        settled := Rejected;
      case ConnectedWithoutProvider =>
        settled := Resolved;
      case ConnectedWithProvider(load) =>
        settled := LoadProvider(load);
    }
  }
}
