/** The investor dashboard: the buy and sell forms with their handlers, the
    disconnect action, and the values derived for display (the portfolio
    total and the signed transaction amounts). */
module UserDashboard {
  import opened Common

  datatype BuyForm = BuyForm(landId: string, units: string)
  datatype SellForm = SellForm(landId: string, units: string, pricePerUnit: string)

  /** The inputs of the two forms, one per `onChange` handler. */
  datatype BuyField = BuyLandId | BuyUnits
  datatype SellField = SellLandId | SellUnits | SellPricePerUnit

  function BuyValue(f: BuyForm, field: BuyField): string {
    match field
    case BuyLandId => f.landId
    case BuyUnits => f.units
  }

  function SellValue(f: SellForm, field: SellField): string {
    match field
    case SellLandId => f.landId
    case SellUnits => f.units
    case SellPricePerUnit => f.pricePerUnit
  }

  /** An edit of one buy-form input: that field takes the new value, the other is kept. */
  function UpdateBuy(f: BuyForm, field: BuyField, value: string): (g: BuyForm)
    ensures BuyValue(g, field) == value
    ensures forall other :: other != field ==> BuyValue(g, other) == BuyValue(f, other)
  {
    match field
    case BuyLandId => f.(landId := value)
    case BuyUnits => f.(units := value)
  }

  /** An edit of one sell-form input: that field takes the new value, the others are kept. */
  function UpdateSell(f: SellForm, field: SellField, value: string): (g: SellForm)
    ensures SellValue(g, field) == value
    ensures forall other :: other != field ==> SellValue(g, other) == SellValue(f, other)
  {
    match field
    case SellLandId => f.(landId := value)
    case SellUnits => f.(units := value)
    case SellPricePerUnit => f.(pricePerUnit := value)
  }

  /** An update followed by another of the same field keeps only the second. */
  lemma UpdateBuyOverwrites(f: BuyForm, field: BuyField, v: string, w: string)
    ensures UpdateBuy(UpdateBuy(f, field, v), field, w) == UpdateBuy(f, field, w)
  {
  }

  /** Updates of different fields commute. */
  lemma UpdateSellCommutes(f: SellForm, a: SellField, b: SellField, v: string, w: string)
    requires a != b
    ensures UpdateSell(UpdateSell(f, a, v), b, w) == UpdateSell(UpdateSell(f, b, w), a, v)
  {
  }

  const FILL_ALL_FIELDS: Notification := Notification("Error", "Please fill in all fields", true)

  /** The toast `handleBuyFromAdmin` shows: the error when the land id or the
      unit count is empty (both are falsy then), the purchase otherwise. */
  function BuyNotification(f: BuyForm): (n: Notification)
    ensures n.destructive <==> f.landId == "" || f.units == ""
    ensures n.destructive ==> n == FILL_ALL_FIELDS
    ensures !n.destructive ==>
      (n.title == "Processing Purchase" && n.description == "Buying " + f.units + " units of Land #" + f.landId)
  {
    if f.landId == "" || f.units == "" then FILL_ALL_FIELDS
    else Notification("Processing Purchase", "Buying " + f.units + " units of Land #" + f.landId, false)
  }

  /** The toast `handleListForSale` shows: the error when any of the three fields is empty. */
  function SellNotification(f: SellForm): (n: Notification)
    ensures n.destructive <==> f.landId == "" || f.units == "" || f.pricePerUnit == ""
    ensures n.destructive ==> n == FILL_ALL_FIELDS
    ensures !n.destructive ==>
      (n.title == "Listing for Sale" && n.description == "Listing " + f.units + " units at $" + f.pricePerUnit + " each")
  {
    if f.landId == "" || f.units == "" || f.pricePerUnit == "" then FILL_ALL_FIELDS
    else Notification("Listing for Sale", "Listing " + f.units + " units at $" + f.pricePerUnit + " each", false)
  }

  /** Filling the one remaining field of a buy form with a non-empty value
      makes the purchase go through. */
  lemma BuyRejectionOnlyOnEmptyField(f: BuyForm, field: BuyField, value: string)
    requires value != ""
    requires BuyValue(f, if field == BuyLandId then BuyUnits else BuyLandId) != ""
    ensures !BuyNotification(UpdateBuy(f, field, value)).destructive
  {
  }

  /** The investor dashboard's state: its two forms and the effects it has
      asked of its collaborators (toasts, disconnect, navigation). */
  class Dashboard {
    var buyForm: BuyForm
    var sellForm: SellForm
    var effects: seq<UiEffect>

    /** Both forms start with every field empty. */
    constructor ()
      ensures buyForm == BuyForm("", "") && sellForm == SellForm("", "", "") && effects == []
    {
      buyForm := BuyForm("", "");
      sellForm := SellForm("", "", "");
      effects := [];
    }

    /** An `onChange` of the buy form. */
    method SetBuyField(field: BuyField, value: string)
      modifies this
      ensures buyForm == UpdateBuy(old(buyForm), field, value)
      ensures sellForm == old(sellForm) && effects == old(effects)
    {
      buyForm := UpdateBuy(buyForm, field, value);
    }

    /** An `onChange` of the sell form. */
    method SetSellField(field: SellField, value: string)
      modifies this
      ensures sellForm == UpdateSell(old(sellForm), field, value)
      ensures buyForm == old(buyForm) && effects == old(effects)
    {
      sellForm := UpdateSell(sellForm, field, value);
    }

    /** The disconnect button: disconnect the wallet, then navigate to the landing page at `/`. */
    method HandleDisconnect()
      modifies this
      ensures effects == old(effects) + [Disconnect, Navigate(Home)]
      ensures effects[|effects| - 1].route.Path() == "/"
      ensures buyForm == old(buyForm) && sellForm == old(sellForm)
    {
      effects := effects + [Disconnect];
      effects := effects + [Navigate(Home)];
    }

    /** `handleBuyFromAdmin`: validate, report the error and return early, or
      report the purchase. The forms are left as they are. */
    method HandleBuyFromAdmin()
      modifies this
      ensures effects == old(effects) + [Toast(BuyNotification(buyForm))]
      ensures buyForm == old(buyForm) && sellForm == old(sellForm)
    {
      if buyForm.landId == "" || buyForm.units == "" {
        effects := effects + [Toast(Notification("Error", "Please fill in all fields", true))];
        return;
      }
      effects := effects + [Toast(Notification("Processing Purchase",
        "Buying " + buyForm.units + " units of Land #" + buyForm.landId, false))];
    }

    /** `handleListForSale`: the same shape, over the three fields of the sell form. */
    method HandleListForSale()
      modifies this
      ensures effects == old(effects) + [Toast(SellNotification(sellForm))]
      ensures buyForm == old(buyForm) && sellForm == old(sellForm)
    {
      if sellForm.landId == "" || sellForm.units == "" || sellForm.pricePerUnit == "" {
        effects := effects + [Toast(Notification("Error", "Please fill in all fields", true))];
        return;
      }
      effects := effects + [Toast(Notification("Listing for Sale",
        "Listing " + sellForm.units + " units at $" + sellForm.pricePerUnit + " each", false))];
    }
  }

  // ----- Portfolio total -----

  /** One row of the portfolio; its value is a display string such as `$12,500`. */
  datatype Holding = Holding(landId: int, location: string, units: int, totalValue: string, percentage: int)

  /** A string with neither `$` nor `,` in it. */
  predicate Plain(s: string) {
    forall i :: 0 <= i < |s| ==> s[i] != '$' && s[i] != ','
  }

  /** The display amount with every dollar sign and every comma removed. */
  function StripCurrency(s: string): (r: string)
    ensures |r| <= |s|
    ensures Plain(r)
  {
    if s == [] then []
    else (if s[0] == '$' || s[0] == ',' then [] else [s[0]]) + StripCurrency(s[1..])
  }

  lemma {:induction false} StripCurrencyAppend(a: string, b: string)
    ensures StripCurrency(a + b) == StripCurrency(a) + StripCurrency(b)
  {
    if a != [] {
      assert (a + b)[0] == a[0];
      assert (a + b)[1..] == a[1..] + b;
      StripCurrencyAppend(a[1..], b);
    } else {
      assert a + b == b;
    }
  }

  /** A string with neither `$` nor `,` comes through unchanged. */
  lemma {:induction false} StripCurrencyKeepsPlainText(s: string)
    requires Plain(s)
    ensures StripCurrency(s) == s
  {
    if s != [] {
      StripCurrencyKeepsPlainText(s[1..]);
    }
  }

  /** Stripping twice is stripping once. */
  lemma StripCurrencyIdempotent(s: string)
    ensures StripCurrency(StripCurrency(s)) == StripCurrency(s)
  {
    StripCurrencyKeepsPlainText(StripCurrency(s));
  }

  /** A display amount `$<thousands>,<rest>` strips to its digits. */
  lemma StripThousands(thousands: string, rest: string)
    requires Plain(thousands)
    requires Plain(rest)
    ensures StripCurrency("$" + thousands + "," + rest) == thousands + rest
  {
    var dollar, comma: string := "$", ",";
    assert StripCurrency(dollar) == [] by { assert dollar[1..] == []; }
    assert StripCurrency(comma) == [] by { assert comma[1..] == []; }
    StripCurrencyKeepsPlainText(thousands);
    StripCurrencyKeepsPlainText(rest);
    var x := dollar + thousands;
    StripCurrencyAppend(dollar, thousands);
    assert StripCurrency(x) == thousands;
    var y := x + comma;
    StripCurrencyAppend(x, comma);
    assert StripCurrency(y) == thousands;
    StripCurrencyAppend(y, rest);
  }

  predicate IsDigit(c: char) { '0' <= c <= '9' }

  /** A string `parseInt` reads completely: one or more decimal digits. */
  predicate IsNumeral(s: string) {
    s != [] && forall i :: 0 <= i < |s| ==> IsDigit(s[i])
  }

  function DigitValue(c: char): nat
    requires IsDigit(c)
  {
    c as int - '0' as int
  }

  /** `parseInt` reads a numeral left to right, multiplying what it has read so far by ten
      before adding the next digit. */
  function ParseDigits(acc: nat, s: string): (r: nat)
    requires forall i :: 0 <= i < |s| ==> IsDigit(s[i])
    ensures r >= acc
    ensures s != [] ==> r >= 10 * acc + DigitValue(s[0])
    decreases |s|
  {
    if s == [] then acc else ParseDigits(10 * acc + DigitValue(s[0]), s[1..])
  }

  /** Base-ten integer parsing of a numeral. */
  function ParseInt(s: string): (n: nat)
    requires IsNumeral(s)
    ensures n >= DigitValue(s[0])
    ensures |s| == 1 ==> n == DigitValue(s[0])
  {
    assert ParseDigits(0, s) == ParseDigits(DigitValue(s[0]), s[1..]);
    assert |s| == 1 ==> s[1..] == [];
    ParseDigits(0, s)
  }

  /** Reading one more digit multiplies the value read so far by ten and adds the digit. */
  lemma {:induction false} ParseDigitsSnoc(acc: nat, s: string, c: char)
    requires forall i :: 0 <= i < |s| ==> IsDigit(s[i])
    requires IsDigit(c)
    ensures ParseDigits(acc, s + [c]) == 10 * ParseDigits(acc, s) + DigitValue(c)
    decreases |s|
  {
    if s != [] {
      assert (s + [c])[1..] == s[1..] + [c];
      ParseDigitsSnoc(10 * acc + DigitValue(s[0]), s[1..], c);
    }
  }

  /** The decimal numeral of a natural number, most significant digit first.
      A reference definition for the parser; the dashboard itself has no such function. */
  function Decimal(n: nat): (s: string)
    ensures IsNumeral(s)
  {
    if n < 10 then [('0' as int + n) as char]
    else Decimal(n / 10) + [('0' as int + n % 10) as char]
  }

  /** `parseInt` reads back what decimal rendering writes. */
  lemma {:induction false} ParseIntDecimal(n: nat)
    ensures ParseInt(Decimal(n)) == n
  {
    var c := ('0' as int + n % 10) as char;
    assert DigitValue(c) == n % 10;
    if n >= 10 {
      ParseIntDecimal(n / 10);
      ParseDigitsSnoc(0, Decimal(n / 10), c);
    } else {
      assert Decimal(n) == [] + [c];
      ParseDigitsSnoc(0, [], c);
    }
  }

  /** A holding's value `parseInt` reads completely once `$` and `,` are stripped. */
  predicate Parsable(h: Holding) {
    IsNumeral(StripCurrency(h.totalValue))
  }

  function HoldingValue(h: Holding): nat
    requires Parsable(h)
  {
    ParseInt(StripCurrency(h.totalValue))
  }

  /** The portfolio total: starting from zero, add each holding's parsed
      value in turn, folding from the left as the dashboard's reduction does. */
  function TotalPortfolioValue(holdings: seq<Holding>): (total: nat)
    requires forall i :: 0 <= i < |holdings| ==> Parsable(holdings[i])
    ensures holdings == [] ==> total == 0
    ensures forall i :: 0 <= i < |holdings| ==> HoldingValue(holdings[i]) <= total
  {
    if holdings == [] then 0
    else TotalPortfolioValue(holdings[..|holdings| - 1]) + HoldingValue(holdings[|holdings| - 1])
  }

  /** The total of a concatenation is the sum of the totals. */
  lemma {:induction false} TotalAppend(a: seq<Holding>, b: seq<Holding>)
    requires forall i :: 0 <= i < |a| ==> Parsable(a[i])
    requires forall i :: 0 <= i < |b| ==> Parsable(b[i])
    ensures TotalPortfolioValue(a + b) == TotalPortfolioValue(a) + TotalPortfolioValue(b)
  {
    if b != [] {
      assert (a + b)[..|a + b| - 1] == a + b[..|b| - 1];
      TotalAppend(a, b[..|b| - 1]);
    } else {
      assert a + b == a;
    }
  }

  /** The total of three holdings, unfolded. */
  lemma TotalOfThree(a: Holding, b: Holding, c: Holding)
    requires Parsable(a) && Parsable(b) && Parsable(c)
    ensures TotalPortfolioValue([a, b, c]) == HoldingValue(a) + HoldingValue(b) + HoldingValue(c)
  {
    assert [a][..0] == [];
    assert TotalPortfolioValue([a]) == HoldingValue(a);
    assert [a, b][..1] == [a];
    assert TotalPortfolioValue([a, b]) == HoldingValue(a) + HoldingValue(b);
    assert [a, b, c][..2] == [a, b];
  }

  /** What `parseInt` reads from each of the three mock display strings. */
  lemma MockHolding1(h: Holding)
    requires h.totalValue == "$12,500"
    ensures Parsable(h) && HoldingValue(h) == 12500
  {
    assert "$12,500" == "$" + "12" + "," + "500";
    StripThousands("12", "500");
    assert "12" + "500" == "12500";
    assert IsNumeral("12500") && ParseInt("12500") == 12500;
  }

  lemma MockHolding2(h: Holding)
    requires h.totalValue == "$9,000"
    ensures Parsable(h) && HoldingValue(h) == 9000
  {
    assert "$9,000" == "$" + "9" + "," + "000";
    StripThousands("9", "000");
    assert "9" + "000" == "9000";
    assert IsNumeral("9000") && ParseInt("9000") == 9000;
  }

  lemma MockHolding3(h: Holding)
    requires h.totalValue == "$19,200"
    ensures Parsable(h) && HoldingValue(h) == 19200
  {
    assert "$19,200" == "$" + "19" + "," + "200";
    StripThousands("19", "200");
    assert "19" + "200" == "19200";
    assert IsNumeral("19200") && ParseInt("19200") == 19200;
  }

  /** The dashboard's three mock holdings (worth `$12,500`, `$9,000` and
      `$19,200`) total 40700. */
  lemma MockPortfolioTotal(a: Holding, b: Holding, c: Holding)
    requires a.totalValue == "$12,500" && b.totalValue == "$9,000" && c.totalValue == "$19,200"
    ensures Parsable(a) && Parsable(b) && Parsable(c)
    ensures TotalPortfolioValue([a, b, c]) == 40700
  {
    MockHolding1(a);
    MockHolding2(b);
    MockHolding3(c);
    TotalOfThree(a, b, c);
  }

  // ----- Transactions -----

  /** One row of the transaction history. */
  datatype Transaction = Transaction(kind: string, landId: int, amount: string, value: string, date: string)

  /** The displayed amount: `-` before the value for a purchase, `+` for anything else. */
  function SignedValue(tx: Transaction): (r: string)
    ensures |r| == |tx.value| + 1 && r[1..] == tx.value
    ensures r[0] == '-' <==> tx.kind == "Purchase"
    ensures r[0] == '+' <==> tx.kind != "Purchase"
  {
    (if tx.kind == "Purchase" then "-" else "+") + tx.value
  }

  /** The amount's colour: emerald for a purchase, gold for anything else. */
  function ValueTone(tx: Transaction): (t: Tone)
    ensures t == Emerald <==> tx.kind == "Purchase"
  {
    if tx.kind == "Purchase" then Emerald else Gold
  }

  /** Sign and colour agree: a value is shown negative exactly when it is emerald. */
  lemma SignMatchesTone(tx: Transaction)
    ensures SignedValue(tx)[0] == '-' <==> ValueTone(tx) == Emerald
  {
  }
}
