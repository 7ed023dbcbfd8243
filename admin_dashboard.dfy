/** The admin console: the tokenize form and the platform-fee form with
    their handlers, fee withdrawal, the disconnect action, and the style of
    each land parcel's status badge. */
module AdminDashboard {
  import opened Common

  datatype TokenizeForm = TokenizeForm(location: string, acres: string, metadataUri: string)
  datatype FeeForm = FeeForm(feePercentage: string)

  /** The inputs of the tokenize form, one per `onChange` handler. */
  datatype TokenizeField = Location | Acres | MetadataUri

  function TokenizeValue(f: TokenizeForm, field: TokenizeField): string {
    match field
    case Location => f.location
    case Acres => f.acres
    case MetadataUri => f.metadataUri
  }

  /** An edit of one tokenize-form input: that field takes the new value, the others are kept. */
  function UpdateTokenize(f: TokenizeForm, field: TokenizeField, value: string): (g: TokenizeForm)
    ensures TokenizeValue(g, field) == value
    ensures forall other :: other != field ==> TokenizeValue(g, other) == TokenizeValue(f, other)
  {
    match field
    case Location => f.(location := value)
    case Acres => f.(acres := value)
    case MetadataUri => f.(metadataUri := value)
  }

  /** The toast `handleTokenizeLand` shows: the error when the location or the
      acreage is empty; the metadata URI is optional and never checked. */
  function TokenizeNotification(f: TokenizeForm): (n: Notification)
    ensures n.destructive <==> f.location == "" || f.acres == ""
    ensures n.destructive ==> n == Notification("Error", "Please fill in all required fields", true)
    ensures !n.destructive ==>
      (n.title == "Tokenizing Land" && n.description == "Processing tokenization for " + f.location)
  {
    if f.location == "" || f.acres == "" then Notification("Error", "Please fill in all required fields", true)
    else Notification("Tokenizing Land", "Processing tokenization for " + f.location, false)
  }

  /** The toast `handleSetPlatformFee` shows: the error when the fee is empty. */
  function FeeNotification(f: FeeForm): (n: Notification)
    ensures n.destructive <==> f.feePercentage == ""
    ensures n.destructive ==> n == Notification("Error", "Please enter a fee percentage", true)
    ensures !n.destructive ==>
      (n.title == "Setting Platform Fee" && n.description == "Setting fee to " + f.feePercentage + "%")
  {
    if f.feePercentage == "" then Notification("Error", "Please enter a fee percentage", true)
    else Notification("Setting Platform Fee", "Setting fee to " + f.feePercentage + "%", false)
  }

  const WITHDRAW_NOTIFICATION: Notification := Notification("Withdrawing Fees", "Processing fee withdrawal...", false)

  /** The metadata URI never affects validation: changing it leaves the
      tokenize handler's verdict as it was. */
  lemma MetadataUriNeverChecked(f: TokenizeForm, uri: string)
    ensures TokenizeNotification(UpdateTokenize(f, MetadataUri, uri)).destructive ==
            TokenizeNotification(f).destructive
  {
  }

  /** The admin console's state: its two forms and the effects it has asked
      of its collaborators. */
  class Dashboard {
    var tokenizeForm: TokenizeForm
    var feeForm: FeeForm
    var effects: seq<UiEffect>

    /** Both forms start with every field empty. */
    constructor ()
      ensures tokenizeForm == TokenizeForm("", "", "") && feeForm == FeeForm("") && effects == []
    {
      tokenizeForm := TokenizeForm("", "", "");
      feeForm := FeeForm("");
      effects := [];
    }

    /** An `onChange` of the tokenize form. */
    method SetTokenizeField(field: TokenizeField, value: string)
      modifies this
      ensures tokenizeForm == UpdateTokenize(old(tokenizeForm), field, value)
      ensures feeForm == old(feeForm) && effects == old(effects)
    {
      tokenizeForm := UpdateTokenize(tokenizeForm, field, value);
    }

    /** The fee input's `onChange`: the form's only field. */
    method SetFeePercentage(value: string)
      modifies this
      ensures feeForm == old(feeForm).(feePercentage := value)
      ensures tokenizeForm == old(tokenizeForm) && effects == old(effects)
    {
      feeForm := feeForm.(feePercentage := value);
    }

    /** The disconnect button: disconnect the wallet, then navigate to the landing page at `/`. */
    method HandleDisconnect()
      modifies this
      ensures effects == old(effects) + [Disconnect, Navigate(Home)]
      ensures effects[|effects| - 1].route.Path() == "/"
      ensures tokenizeForm == old(tokenizeForm) && feeForm == old(feeForm)
    {
      effects := effects + [Disconnect];
      effects := effects + [Navigate(Home)];
    }

    /** `handleTokenizeLand`: validate, report the error and return early, or report the tokenization. */
    method HandleTokenizeLand()
      modifies this
      ensures effects == old(effects) + [Toast(TokenizeNotification(tokenizeForm))]
      ensures tokenizeForm == old(tokenizeForm) && feeForm == old(feeForm)
    {
      if tokenizeForm.location == "" || tokenizeForm.acres == "" {
        effects := effects + [Toast(Notification("Error", "Please fill in all required fields", true))];
        return;
      }
      effects := effects + [Toast(Notification("Tokenizing Land",
        "Processing tokenization for " + tokenizeForm.location, false))];
    }

    /** `handleSetPlatformFee`: the same shape, over the fee percentage. */
    method HandleSetPlatformFee()
      modifies this
      ensures effects == old(effects) + [Toast(FeeNotification(feeForm))]
      ensures tokenizeForm == old(tokenizeForm) && feeForm == old(feeForm)
    {
      if feeForm.feePercentage == "" {
        effects := effects + [Toast(Notification("Error", "Please enter a fee percentage", true))];
        return;
      }
      effects := effects + [Toast(Notification("Setting Platform Fee",
        "Setting fee to " + feeForm.feePercentage + "%", false))];
    }

    /** `handleWithdrawFees`: no validation, always the withdrawal toast. */
    method HandleWithdrawFees()
      modifies this
      ensures effects == old(effects) + [Toast(WITHDRAW_NOTIFICATION)]
      ensures tokenizeForm == old(tokenizeForm) && feeForm == old(feeForm)
    {
      effects := effects + [Toast(WITHDRAW_NOTIFICATION)];
    }
  }

  /** The status badge's colour: emerald exactly for an `Active` parcel, gold for any other status. */
  function StatusTone(status: string): (t: Tone)
    ensures t == Emerald <==> status == "Active"
    ensures t == Gold <==> status != "Active"
  {
    if status == "Active" then Emerald else Gold
  }
}
