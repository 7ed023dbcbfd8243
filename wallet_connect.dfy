/** The wallet button: from the render properties the wallet kit hands to
    its custom connect button, decide whether the wrapper is hidden and
    which of the three views (connect, wrong network, chain and account)
    is rendered. */
module WalletConnect {
  import opened Common

  /** The wallet kit's authentication status; absent when no authentication adapter is configured. */
  datatype AuthStatus = Loading | Unauthenticated | Authenticated

  datatype Account = Account(displayName: string, displayBalance: Option<string>)

  datatype Chain = Chain(name: Option<string>, unsupported: Option<bool>)

  datatype RenderProps = RenderProps(
    account: Option<Account>,
    chain: Option<Chain>,
    authenticationStatus: Option<AuthStatus>,
    mounted: bool)

  /** The button is ready once it is mounted and authentication is not still loading. */
  predicate Ready(p: RenderProps) {
    p.mounted && p.authenticationStatus != Some(Loading)
  }

  /** Connected: ready, with an account and a chain, and either no
      authentication adapter or an authenticated session. */
  predicate Connected(p: RenderProps) {
    && Ready(p)
    && p.account.Some?
    && p.chain.Some?
    && (p.authenticationStatus.None? || p.authenticationStatus == Some(Authenticated))
  }

  /** The three things the button can render. */
  datatype View =
    | ConnectView
    | WrongNetworkView
    | AccountView(chainName: Option<string>, accountLabel: string)

  /** The account button's text: the display name, followed by the balance in
      parentheses when the balance is present and non-empty. */
  function AccountLabel(a: Account): (r: string)
    ensures |r| >= |a.displayName| && r[..|a.displayName|] == a.displayName
    ensures |r| == |a.displayName| <==> !(a.displayBalance.Some? && a.displayBalance.value != "")
    ensures |r| > |a.displayName| ==> r[|a.displayName|..] == " (" + a.displayBalance.value + ")"
  {
    match a.displayBalance
    case Some(b) => if b != "" then a.displayName + " (" + b + ")" else a.displayName
    case None => a.displayName
  }

  /** The if-chain inside the render function. */
  function SelectView(p: RenderProps): (v: View)
    ensures v.ConnectView? <==> !Connected(p)
    ensures v.WrongNetworkView? <==> Connected(p) && p.chain.value.unsupported == Some(true)
    ensures v.AccountView? ==>
      Connected(p) && v.chainName == p.chain.value.name
      && v.accountLabel == AccountLabel(p.account.value)
  {
    if !Connected(p) then ConnectView
    else if p.chain.value.unsupported == Some(true) then WrongNetworkView
    else AccountView(p.chain.value.name, AccountLabel(p.account.value))
  }

  /** The wrapper's attributes: when not ready it is aria-hidden, fully
      transparent and ignores pointer events and text selection. */
  datatype Wrapper = Wrapper(ariaHidden: bool, transparent: bool, noPointerEvents: bool, noUserSelect: bool)

  function WrapperFor(p: RenderProps): (w: Wrapper)
    ensures w.ariaHidden <==> !Ready(p)
    ensures w.transparent == w.ariaHidden && w.noPointerEvents == w.ariaHidden && w.noUserSelect == w.ariaHidden
  {
    var hidden := !Ready(p);
    Wrapper(hidden, hidden, hidden, hidden)
  }

  /** Being connected implies being ready and having both an account and a chain. */
  lemma ConnectedImpliesReady(p: RenderProps)
    requires Connected(p)
    ensures Ready(p) && p.account.Some? && p.chain.Some?
    ensures p.authenticationStatus != Some(Unauthenticated)
  {
  }

  /** The chain and account view is shown exactly in the one case the other
      two leave: connected on a supported chain. */
  lemma AccountViewExactlyWhenConnectedOnSupportedChain(p: RenderProps)
    ensures SelectView(p).AccountView? <==> Connected(p) && p.chain.value.unsupported != Some(true)
  {
  }

  /** While not ready the button renders the connect view inside a hidden
      wrapper, and a visible wrapper never holds a view that needs a session
      the kit is still loading. */
  lemma HiddenWhileNotReady(p: RenderProps)
    ensures !Ready(p) ==> WrapperFor(p).ariaHidden && SelectView(p) == ConnectView
    ensures SelectView(p) != ConnectView ==> !WrapperFor(p).ariaHidden
  {
  }

  /** An unauthenticated session always shows the connect view, even with an
      account and a chain present. */
  lemma UnauthenticatedShowsConnect(p: RenderProps)
    requires p.authenticationStatus == Some(Unauthenticated)
    ensures SelectView(p) == ConnectView
  {
  }
}
