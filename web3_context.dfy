/**
  The client's wallet state: the connected account and whether a connect
  request is in flight. Whether a wallet provider is installed and what it
  answers are parameters.
 */
module Web3Context {
  import opened JsValues

  /** What the provider's `eth_requestAccounts` request settles with. */
  datatype RequestReply = Rejected(error: string) | Accounts(list: seq<string>)

  class Web3Provider {
    /** The connected account; None is null. */
    var account: Option<string>
    var isConnecting: bool
    /** `window.ethereum !== undefined`. */
    const installed: bool

    constructor (installed: bool)
      ensures account == None && !isConnecting && this.installed == installed
    {
      account := None;
      isConnecting := false;
      this.installed := installed;
    }

    /** isConnected is `!!account`: an account that is neither null nor empty. */
    function IsConnected(): (r: bool)
      reads this
      ensures r <==> account.Some? && |account.value| > 0
    {
      Truthy(account)
    }

    /**
      connectWallet up to its `await`: without a provider nothing changes;
      otherwise the request is pending and isConnecting is set.
     */
    method BeginConnect() returns (started: bool)
      modifies this
      ensures started == installed
      ensures account == old(account)
      ensures isConnecting == (installed || old(isConnecting))
    {
      if !installed {
        return false;
      }
      isConnecting := true;
      started := true;
    }

    /**
      connectWallet after its `await`: a non-empty account list selects its
      first entry; an empty list or a rejected request keeps the account;
      either way isConnecting ends false.
     */
    method FinishConnect(reply: RequestReply)
      modifies this
      ensures !isConnecting
      ensures reply.Accounts? && |reply.list| > 0 ==> account == Some(reply.list[0])
      ensures !(reply.Accounts? && |reply.list| > 0) ==> account == old(account)
    {
      if reply.Accounts? && |reply.list| > 0 {
        account := Some(reply.list[0]);
      }
      isConnecting := false;
    }

    /**
      connectWallet: `pending` is isConnecting while the request is
      outstanding. Without a provider the state is untouched.
     */
    method ConnectWallet(reply: RequestReply) returns (pending: bool)
      modifies this
      ensures pending == installed
      ensures !installed ==> account == old(account) && isConnecting == old(isConnecting)
      ensures installed ==> !isConnecting
      ensures installed && reply.Accounts? && |reply.list| > 0 ==> account == Some(reply.list[0])
      ensures installed && !(reply.Accounts? && |reply.list| > 0) ==> account == old(account)
    {
      var started := BeginConnect();
      if started {
        pending := isConnecting;
        FinishConnect(reply);
      } else {
        pending := false;
      }
    }

    /**
      The accountsChanged handler, registered only when a provider is
      installed: an empty list disconnects, otherwise the first entry is the
      account.
     */
    method AccountsChanged(accounts: seq<string>)
      requires installed
      modifies this
      ensures |accounts| == 0 ==> account == None && !IsConnected()
      ensures |accounts| > 0 ==> account == Some(accounts[0])
      ensures isConnecting == old(isConnecting)
    {
      if |accounts| == 0 {
        account := None;
      } else {
        account := Some(accounts[0]);
      }
    }
  }
}
