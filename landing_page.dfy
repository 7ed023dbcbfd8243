/** The landing page's session router: the effect that runs whenever the
    wallet's connection flag or address changes, and the rule that decides
    whether the page offers its wallet-connect control. */
module LandingPage {
  import opened Common

  /** ASCII lower-casing of one character (`toLowerCase` on a hexadecimal address). */
  function LowerChar(c: char): (d: char)
    ensures 'A' <= c <= 'Z' ==> d as int == c as int + 32
    ensures !('A' <= c <= 'Z') ==> d == c
  {
    if 'A' <= c <= 'Z' then (c as int + 32) as char else c
  }

  /** Lower-casing of a whole string, restricted to ASCII case folding. */
  function Lower(s: string): (r: string)
    ensures |r| == |s|
    ensures forall i :: 0 <= i < |s| ==> r[i] == LowerChar(s[i])
  {
    if s == [] then [] else [LowerChar(s[0])] + Lower(s[1..])
  }

  /** Two strings that differ at most in the case of their ASCII letters. */
  predicate SameUpToCase(s: string, t: string) {
    |s| == |t| && forall i :: 0 <= i < |s| ==> LowerChar(s[i]) == LowerChar(t[i])
  }

  /** The navigation the effect performs for a session, if any: nothing
      unless the wallet is connected with a present, non-empty address
      (an empty string is falsy); then the admin route exactly when the
      lower-cased address equals the lower-cased admin address, and the
      investor dashboard otherwise. */
  function RouteFor(isConnected: bool, address: Option<string>, admin: string): (r: Option<Route>)
    ensures r != Some(Home)
  {
    if isConnected && address.Some? && address.value != "" then
      if Lower(address.value) == Lower(admin) then Some(Admin) else Some(Dashboard)
    else
      None
  }

  /** Navigation happens if and only if the wallet is connected with a
      present, non-empty address. */
  lemma NavigatesOnlyWhenConnected(isConnected: bool, address: Option<string>, admin: string)
    ensures RouteFor(isConnected, address, admin).Some? <==>
      isConnected && address.Some? && address.value != ""
  {
  }

  /** For a connected, present address: the admin route if and only if the
      lower-cased addresses agree; every other address, however malformed,
      goes to the dashboard. */
  lemma AdminExactlyOnLowercaseMatch(address: string, admin: string)
    requires address != ""
    ensures RouteFor(true, Some(address), admin) == Some(Admin) <==> Lower(address) == Lower(admin)
    ensures Lower(address) != Lower(admin) ==> RouteFor(true, Some(address), admin) == Some(Dashboard)
  {
  }

  /** Lower-casing is the same as comparing character by character up to case. */
  lemma {:induction false} LowerEqualIffSameUpToCase(s: string, t: string)
    ensures Lower(s) == Lower(t) <==> SameUpToCase(s, t)
  {
    if SameUpToCase(s, t) {
      assert forall i :: 0 <= i < |s| ==> Lower(s)[i] == Lower(t)[i];
    }
  }

  /** Lower-casing distributes over concatenation. */
  lemma {:induction false} LowerAppend(a: string, b: string)
    ensures Lower(a + b) == Lower(a) + Lower(b)
  {
    if a == [] {
      assert a + b == b;
    } else {
      assert (a + b)[0] == a[0];
      assert (a + b)[1..] == a[1..] + b;
      LowerAppend(a[1..], b);
      calc {
        Lower(a + b);
        [LowerChar(a[0])] + Lower(a[1..] + b);
        [LowerChar(a[0])] + (Lower(a[1..]) + Lower(b));
        ([LowerChar(a[0])] + Lower(a[1..])) + Lower(b);
      }
    }
  }

  /** Two addresses that differ only in letter case get the same route. */
  lemma CaseInsensitive(isConnected: bool, s: string, t: string, admin: string)
    requires SameUpToCase(s, t)
    ensures RouteFor(isConnected, Some(s), admin) == RouteFor(isConnected, Some(t), admin)
  {
    LowerEqualIffSameUpToCase(s, t);
  }

  /** Lower-casing twice is lower-casing once. */
  lemma {:induction false} LowerIdempotent(s: string)
    ensures Lower(Lower(s)) == Lower(s)
  {
    if s != [] {
      LowerIdempotent(s[1..]);
      assert Lower(s) == [LowerChar(s[0])] + Lower(s[1..]);
    }
  }

  /** Only the letters of the configured admin address matter, not their case:
      configuring it lower-cased routes every session the same way. */
  lemma AdminCaseIrrelevant(isConnected: bool, address: Option<string>, admin: string)
    ensures RouteFor(isConnected, address, Lower(admin)) == RouteFor(isConnected, address, admin)
  {
    LowerIdempotent(admin);
  }

  /** The admin route is never granted on a partial or empty match: the
      address must be non-empty and have the admin address's length. */
  lemma NoEscalationWithoutFullMatch(isConnected: bool, address: Option<string>, admin: string)
    requires RouteFor(isConnected, address, admin) == Some(Admin)
    ensures isConnected && address.Some? && address.value != "" && admin != ""
    ensures SameUpToCase(address.value, admin)
  {
    LowerEqualIffSameUpToCase(address.value, admin);
  }

  /** An address that differs from the admin address only in the case of a
      hexadecimal suffix (a check-summed address against its lower-case
      form) reaches the admin console; one that differs in a digit does not. */
  lemma MixedCaseAdminScenario(p: string, d: char)
    requires '0' <= d <= '9' && d != '1'
    ensures RouteFor(true, Some(p + "AAAA"), p + "aaaa") == Some(Admin)
    ensures RouteFor(true, Some([d] + p + "aaaa"), ['1'] + p + "aaaa") == Some(Dashboard)
  {
    LowerAppend(p, "AAAA");
    LowerAppend(p, "aaaa");
    assert Lower("AAAA") == "aaaa";
    var u, t := [d] + p + "aaaa", ['1'] + p + "aaaa";
    assert Lower(u)[0] != Lower(t)[0];
  }

  /** Which of the page's three wallet-connect slots (header, hero, call to
      action) render the control. */
  datatype ConnectSlots = ConnectSlots(header: bool, hero: bool, callToAction: bool)

  /** Each slot renders the control only while the wallet is not connected. */
  function ConnectSlotsFor(isConnected: bool): (v: ConnectSlots)
    ensures v.header <==> !isConnected
    ensures v.hero <==> !isConnected
    ensures v.callToAction <==> !isConnected
  {
    ConnectSlots(!isConnected, !isConnected, !isConnected)
  }

  /** A visitor with a present, non-empty address is either offered the
      connect control or navigated away, never both and never neither. */
  lemma ConnectControlOrNavigation(isConnected: bool, address: string, admin: string)
    requires address != ""
    ensures ConnectSlotsFor(isConnected).hero != RouteFor(isConnected, Some(address), admin).Some?
  {
  }
}
