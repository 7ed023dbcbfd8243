/** Values shared by every screen of the application: optional values, the
    three routes of the router, toast notifications, the effects a screen
    performs on its collaborators, and the wallet-address abbreviation that
    both dashboards display in their headers. */
module Common {

  /** An optional value: JavaScript's `undefined`/`null` or a present value. */
  datatype Option<+T> = None | Some(value: T)

  /** The routes the application navigates between. */
  datatype Route = Home | Admin | Dashboard {
    /** The path handed to the router. */
    function Path(): (p: string)
      ensures |p| >= 1 && p[0] == '/'
      ensures p == "/" <==> this.Home?
      ensures p == "/admin" <==> this.Admin?
      ensures p == "/dashboard" <==> this.Dashboard?
    {
      match this
      case Home => "/"
      case Admin => "/admin"
      case Dashboard => "/dashboard"
    }
  }

  /** Distinct routes have distinct paths, so a path names its route. */
  lemma PathsDistinct(a: Route, b: Route)
    ensures a.Path() == b.Path() ==> a == b
  {
  }

  /** A toast: a title, a description and whether it uses the destructive (error) variant. */
  datatype Notification = Notification(title: string, description: string, destructive: bool)

  /** What a screen asks its collaborators to do: the wallet provider to
      disconnect, the router to navigate, the toaster to show a notification. */
  datatype UiEffect = Disconnect | Navigate(route: Route) | Toast(note: Notification)

  /** The two accent colours a row of a table can take. */
  datatype Tone = Emerald | Gold

  function Min(a: int, b: int): int { if a <= b then a else b }
  function Max(a: int, b: int): int { if a <= b then b else a }

  /** The header's abbreviation of the wallet address: its first eight
      characters, three dots, and its last six. With no address both parts
      render as nothing, leaving the dots. A
      string shorter than eight (six) characters is taken whole by the
      first (last) slice, as JavaScript's `slice` clamps its bounds. */
  function ShortAddress(address: Option<string>): (r: string)
    ensures address.None? ==> r == "..."
    ensures address.Some? ==>
      var a := address.value;
      var head := Min(8, |a|);
      var tail := Min(6, |a|);
      && |r| == head + 3 + tail
      && r[..head] == a[..head]
      && r[head..head + 3] == "..."
      && r[head + 3..] == a[|a| - tail..]
  {
    match address
    case None => "..."
    case Some(a) => a[..Min(8, |a|)] + "..." + a[Max(|a| - 6, 0)..]
  }

  /** For an address of at least fourteen characters the abbreviation keeps
      exactly the first eight and the last six: splicing the hidden middle
      back between them gives the address again. */
  lemma ShortAddressHidesOnlyTheMiddle(a: string)
    requires |a| >= 14
    ensures var r := ShortAddress(Some(a));
      |r| == 17 && r[..8] + a[8..|a| - 6] + r[11..] == a
  {
    var r := ShortAddress(Some(a));
    assert r[..8] == a[..8];
    assert r[11..] == a[|a| - 6..];
    assert a == a[..8] + a[8..|a| - 6] + a[|a| - 6..];
  }
}
