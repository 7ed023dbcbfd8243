/** The metadata hook: a `loading` flag and the last `metadata` fetched,
    updated by `fetchMetadata` around one call to the remote metadata
    function, plus the two shortcuts that fetch the metadata of the platform's
    two contracts. The hook's effects (its state setters, the remote call and
    its toasts) are recorded in order in a trace. */
module PinataMetadata {
  import opened Common

  /** The untyped metadata payload, with the JSON values it can hold. */
  datatype Json =
    | JNull
    | JBool(b: bool)
    | JNum(n: int)
    | JStr(s: string)
    | JArr(items: seq<Json>)
    | JObj(fields: map<string, Json>)

  /** JavaScript truthiness of a JSON value: `null`, `false`, `0` and `""` are falsy. */
  predicate Truthy(j: Json) {
    match j
    case JNull => false
    case JBool(b) => b
    case JNum(n) => n != 0
    case JStr(s) => s != ""
    case JArr(_) => true
    case JObj(_) => true
  }

  /** The body sent to the remote function. */
  datatype MetadataRequest = MetadataRequest(contractAddress: string, ipfsHash: Option<string>)

  /** The remote function's reply. */
  datatype MetadataResponse = MetadataResponse(
    success: bool,
    metadata: Option<Json>,
    ipfsUrl: Option<string>,
    contractAddress: Option<string>,
    error: Option<string>)

  /** A thrown value as the `catch` sees it: an `Error` with its message, or anything else. */
  datatype Thrown = ErrorValue(message: string) | OtherValue

  /** How the awaited remote call came back: the client reported an error
      (which the hook rethrows), or it delivered a reply. */
  datatype CallOutcome = Transport(thrown: Thrown) | Reply(response: MetadataResponse)

  const LAND_TOKEN_CONTRACT: string := "0x2089cb616333462e0987105f137DD8Af2C190957"
  const FRACTIONALIZATION_CONTRACT: string := "0x7eFd92FAB22CAD2a2EBaF5795D43e9eE1367dbf6"
  const FALLBACK_MESSAGE: string := "Failed to fetch metadata"

  /** The message of the error thrown for a failed reply: the reply's own
      error when it is present and non-empty, the fallback message otherwise. */
  function RejectionMessage(error: Option<string>): (m: string)
    ensures m != ""
    ensures error.Some? && error.value != "" ==> m == error.value
    ensures error.None? || error.value == "" ==> m == FALLBACK_MESSAGE
  {
    match error
    case Some(e) => if e != "" then e else FALLBACK_MESSAGE
    case None => FALLBACK_MESSAGE
  }

  /** The message the error toast shows for a caught value. */
  function Describe(t: Thrown): string {
    match t
    case ErrorValue(m) => m
    case OtherValue => "Unknown error"
  }

  /** How one call ends: its metadata is delivered, or a value is thrown and caught. */
  datatype Settled = Fulfilled(metadata: Json) | Rejected(reason: Thrown)

  /** The decision of the `try` block: a client error is rethrown; a reply
      delivers its metadata only when `success` is set and the metadata is
      truthy, and otherwise throws an `Error` with the reply's error message
      or the fallback. */
  function Settle(o: CallOutcome): (s: Settled)
    ensures s.Fulfilled? ==> Truthy(s.metadata)
  {
    match o
    case Transport(t) => Rejected(t)
    case Reply(r) =>
      if r.success && r.metadata.Some? && Truthy(r.metadata.value) then Fulfilled(r.metadata.value)
      else Rejected(ErrorValue(RejectionMessage(r.error)))
  }

  function SuccessNote(contractAddress: string): Notification {
    Notification("Metadata Retrieved", "Successfully fetched metadata for contract " + contractAddress, false)
  }

  function ErrorNote(t: Thrown): Notification {
    Notification("Error", "Failed to fetch metadata: " + Describe(t), true)
  }

  /** The one toast a call ends with. */
  function NoteFor(contractAddress: string, s: Settled): (n: Notification)
    ensures n.destructive <==> s.Rejected?
    ensures s.Fulfilled? ==> n.description == "Successfully fetched metadata for contract " + contractAddress
    ensures s.Rejected? ==> n.description == "Failed to fetch metadata: " + Describe(s.reason)
  {
    match s
    case Fulfilled(_) => SuccessNote(contractAddress)
    case Rejected(t) => ErrorNote(t)
  }

  /** One observable step of the hook. */
  datatype HookEffect =
    | SetLoading(on: bool)
    | Invoke(request: MetadataRequest)
    | SetMetadata(value: Json)
    | ShowToast(note: Notification)

  /** The effects of one call to `fetchMetadata`, in order: `loading` is set
      at the first effect and cleared at the last and touched nowhere else,
      the remote call comes second, and a delivered value adds one effect. */
  function Lifecycle(req: MetadataRequest, o: CallOutcome): (l: seq<HookEffect>)
    ensures |l| == (if Settle(o).Fulfilled? then 5 else 4)
    ensures l[0] == SetLoading(true) && l[1] == Invoke(req) && l[|l| - 1] == SetLoading(false)
    ensures forall i :: 1 <= i < |l| - 1 ==> !l[i].SetLoading?
  {
    var middle := match Settle(o)
      case Fulfilled(m) => [SetMetadata(m), ShowToast(SuccessNote(req.contractAddress))]
      case Rejected(t) => [ShowToast(ErrorNote(t))];
    [SetLoading(true), Invoke(req)] + middle + [SetLoading(false)]
  }

  /** The `loading` state after a trace, starting from `start`: the last value set. */
  function LoadingAfter(start: bool, t: seq<HookEffect>): bool {
    if t == [] then start
    else match t[|t| - 1]
      case SetLoading(b) => b
      case _ => LoadingAfter(start, t[..|t| - 1])
  }

  /** The `metadata` state after a trace, starting from `start`: the last value set. */
  function StoredAfter(start: Option<Json>, t: seq<HookEffect>): Option<Json> {
    if t == [] then start
    else match t[|t| - 1]
      case SetMetadata(m) => Some(m)
      case _ => StoredAfter(start, t[..|t| - 1])
  }

  /** The toasts of a trace, in order. */
  function Toasts(t: seq<HookEffect>): (r: seq<Notification>)
    ensures |r| <= |t|
  {
    if t == [] then []
    else Toasts(t[..|t| - 1]) + (if t[|t| - 1].ShowToast? then [t[|t| - 1].note] else [])
  }

  lemma {:induction false} LoadingAfterAppend(start: bool, a: seq<HookEffect>, b: seq<HookEffect>)
    ensures LoadingAfter(start, a + b) == LoadingAfter(LoadingAfter(start, a), b)
  {
    if b != [] {
      assert (a + b)[..|a + b| - 1] == a + b[..|b| - 1];
      LoadingAfterAppend(start, a, b[..|b| - 1]);
    } else {
      assert a + b == a;
    }
  }

  lemma {:induction false} StoredAfterAppend(start: Option<Json>, a: seq<HookEffect>, b: seq<HookEffect>)
    ensures StoredAfter(start, a + b) == StoredAfter(StoredAfter(start, a), b)
  {
    if b != [] {
      assert (a + b)[..|a + b| - 1] == a + b[..|b| - 1];
      StoredAfterAppend(start, a, b[..|b| - 1]);
    } else {
      assert a + b == a;
    }
  }

  lemma {:induction false} ToastsAppend(a: seq<HookEffect>, b: seq<HookEffect>)
    ensures Toasts(a + b) == Toasts(a) + Toasts(b)
  {
    if b != [] {
      assert (a + b)[..|a + b| - 1] == a + b[..|b| - 1];
      ToastsAppend(a, b[..|b| - 1]);
    } else {
      assert a + b == a;
    }
  }

  /** A trace that sets no loading state leaves it as it was. */
  lemma {:induction false} LoadingUntouched(start: bool, t: seq<HookEffect>)
    requires forall i :: 0 <= i < |t| ==> !t[i].SetLoading?
    ensures LoadingAfter(start, t) == start
  {
    if t != [] {
      LoadingUntouched(start, t[..|t| - 1]);
    }
  }

  /** A trace that stores no metadata leaves the stored value as it was. */
  lemma {:induction false} StoredUntouched(start: Option<Json>, t: seq<HookEffect>)
    requires forall i :: 0 <= i < |t| ==> !t[i].SetMetadata?
    ensures StoredAfter(start, t) == start
  {
    if t != [] {
      StoredUntouched(start, t[..|t| - 1]);
    }
  }

  /** `loading` brackets the call: a call's first effect sets it, it stays set
      through the remote call and its handling, and the last effect clears it,
      whatever the outcome. */
  lemma LoadingBracketsTheCall(start: bool, req: MetadataRequest, o: CallOutcome)
    ensures var l := Lifecycle(req, o);
      && l[0] == SetLoading(true) && l[1] == Invoke(req) && l[|l| - 1] == SetLoading(false)
      && (forall k :: 1 <= k < |l| ==> LoadingAfter(start, l[..k]))
      && !LoadingAfter(start, l)
  {
    var l := Lifecycle(req, o);
    forall k | 1 <= k < |l| ensures LoadingAfter(start, l[..k]) {
      assert l[..k] == [SetLoading(true)] + l[1..k];
      LoadingAfterAppend(start, [SetLoading(true)], l[1..k]);
      LoadingUntouched(true, l[1..k]);
    }
  }

  /** Exactly one toast per call: the success toast naming the contract, or one error toast. */
  lemma ExactlyOneToast(req: MetadataRequest, o: CallOutcome)
    ensures Toasts(Lifecycle(req, o)) == [NoteFor(req.contractAddress, Settle(o))]
  {
    var l := Lifecycle(req, o);
    var middle := l[2..|l| - 1];
    assert l == [SetLoading(true)] + [Invoke(req)] + middle + [SetLoading(false)];
    ToastsAppend([SetLoading(true)] + [Invoke(req)] + middle, [SetLoading(false)]);
    ToastsAppend([SetLoading(true)] + [Invoke(req)], middle);
    ToastsAppend([SetLoading(true)], [Invoke(req)]);
    if Settle(o).Fulfilled? {
      ToastsAppend([middle[0]], [middle[1]]);
      assert middle == [middle[0]] + [middle[1]];
    }
  }

  /** A call stores exactly the delivered metadata and otherwise leaves the stored value alone. */
  lemma StoredAfterCall(start: Option<Json>, req: MetadataRequest, o: CallOutcome)
    ensures StoredAfter(start, Lifecycle(req, o)) ==
      (if Settle(o).Fulfilled? then Some(Settle(o).metadata) else start)
  {
    var l := Lifecycle(req, o);
    var prefix := [SetLoading(true), Invoke(req)];
    var middle := l[2..|l| - 1];
    assert l == prefix + middle + [SetLoading(false)];
    StoredAfterAppend(start, prefix + middle, [SetLoading(false)]);
    StoredAfterAppend(start, prefix, middle);
    StoredUntouched(start, prefix);
    if Settle(o).Fulfilled? {
      assert middle[..1] == [SetMetadata(Settle(o).metadata)];
      assert StoredAfter(start, middle) == Some(Settle(o).metadata);
    }
  }

  /** A reply delivers its metadata if and only if `success` is set and the
      metadata is truthy, and then delivers it unchanged. */
  lemma DeliveredExactlyOnSuccessWithMetadata(r: MetadataResponse)
    ensures Settle(Reply(r)).Fulfilled? <==> r.success && r.metadata.Some? && Truthy(r.metadata.value)
    ensures Settle(Reply(r)).Fulfilled? ==> Settle(Reply(r)).metadata == r.metadata.value
  {
  }

  /** `success` with missing or falsy metadata is a failure, reported with the reply's error or the fallback. */
  lemma SuccessWithoutMetadataFails(r: MetadataResponse)
    requires r.success && (r.metadata.None? || !Truthy(r.metadata.value))
    ensures Settle(Reply(r)) == Rejected(ErrorValue(RejectionMessage(r.error)))
  {
  }

  /** The error toast of a failed reply reads `Failed to fetch metadata: ` followed by
      the reply's non-empty error, or by the fallback message. */
  lemma FailedReplyToast(contractAddress: string, r: MetadataResponse)
    requires Settle(Reply(r)).Rejected?
    ensures var n := NoteFor(contractAddress, Settle(Reply(r)));
      n.destructive &&
      n.description == "Failed to fetch metadata: " +
        (if r.error.Some? && r.error.value != "" then r.error.value else FALLBACK_MESSAGE)
  {
  }

  /** A client error is always a failure carrying the client's own message. */
  lemma TransportErrorFails(contractAddress: string, t: Thrown)
    ensures Settle(Transport(t)) == Rejected(t)
    ensures var n := NoteFor(contractAddress, Settle(Transport(t)));
      n.destructive && n.description == "Failed to fetch metadata: " + Describe(t)
  {
  }

  /** Appending one call to any trace leaves `loading` cleared and the stored
      metadata replaced by the delivered value, or else kept. */
  lemma CallSettlesState(before: seq<HookEffect>, req: MetadataRequest, o: CallOutcome)
    ensures !LoadingAfter(false, before + Lifecycle(req, o))
    ensures StoredAfter(None, before + Lifecycle(req, o)) ==
      (if Settle(o).Fulfilled? then Some(Settle(o).metadata) else StoredAfter(None, before))
  {
    LoadingAfterAppend(false, before, Lifecycle(req, o));
    LoadingBracketsTheCall(LoadingAfter(false, before), req, o);
    StoredAfterAppend(None, before, Lifecycle(req, o));
    StoredAfterCall(StoredAfter(None, before), req, o);
  }

  /** The hook's state: the two React state cells and the trace of effects since it mounted. */
  class Hook {
    var loading: bool
    var metadata: Option<Json>
    var trace: seq<HookEffect>

    /** The state cells hold what the trace last set, starting from their
        initial values, and only truthy metadata is ever stored. */
    ghost predicate Valid()
      reads this
    {
      && loading == LoadingAfter(false, trace)
      && metadata == StoredAfter(None, trace)
      && (metadata.Some? ==> Truthy(metadata.value))
    }

    /** A freshly mounted hook: not loading, nothing stored, no effects yet. */
    constructor ()
      ensures Valid()
      ensures !loading && metadata == None && trace == []
    {
      loading := false;
      metadata := None;
      trace := [];
    }

    /** One metadata fetch for a contract and an optional IPFS hash, with the awaited remote call's outcome as input. */
    method FetchMetadata(contractAddress: string, ipfsHash: Option<string>, outcome: CallOutcome)
      returns (r: Option<Json>)
      requires Valid()
      modifies this
      ensures Valid()
      ensures trace == old(trace) + Lifecycle(MetadataRequest(contractAddress, ipfsHash), outcome)
      ensures !loading
      ensures r == (if Settle(outcome).Fulfilled? then Some(Settle(outcome).metadata) else None)
      ensures metadata == (if r.Some? then r else old(metadata))
    {
      ghost var before := trace;
      loading := true;
      trace := trace + [SetLoading(true)];
      var request := MetadataRequest(contractAddress, ipfsHash);
      trace := trace + [Invoke(request)];
      var caught: Option<Thrown> := None;
      match outcome {
        case Transport(t) =>
          caught := Some(t);
        case Reply(response) =>
          if response.success && response.metadata.Some? && Truthy(response.metadata.value) {
            metadata := response.metadata;
            trace := trace + [SetMetadata(response.metadata.value)];
            trace := trace + [ShowToast(SuccessNote(contractAddress))];
            r := response.metadata;
          } else {
            caught := Some(ErrorValue(RejectionMessage(response.error)));
          }
      }
      if caught.Some? {
        trace := trace + [ShowToast(ErrorNote(caught.value))];
        r := None;
      }
      loading := false;
      trace := trace + [SetLoading(false)];

      assert trace == before + Lifecycle(request, outcome);
      CallSettlesState(before, request, outcome);
    }

    /** The land-token shortcut: a fetch for the land-token contract with no IPFS hash. */
    method FetchLandTokenMetadata(outcome: CallOutcome) returns (r: Option<Json>)
      requires Valid()
      modifies this
      ensures Valid()
      ensures trace == old(trace) + Lifecycle(MetadataRequest(LAND_TOKEN_CONTRACT, None), outcome)
      ensures !loading
      ensures r == (if Settle(outcome).Fulfilled? then Some(Settle(outcome).metadata) else None)
      ensures metadata == (if r.Some? then r else old(metadata))
    {
      r := FetchMetadata(LAND_TOKEN_CONTRACT, None, outcome);
    }

    /** The fractionalization shortcut: a fetch for the fractionalization contract with no IPFS hash. */
    method FetchFractionalizationMetadata(outcome: CallOutcome) returns (r: Option<Json>)
      requires Valid()
      modifies this
      ensures Valid()
      ensures trace == old(trace) + Lifecycle(MetadataRequest(FRACTIONALIZATION_CONTRACT, None), outcome)
      ensures !loading
      ensures r == (if Settle(outcome).Fulfilled? then Some(Settle(outcome).metadata) else None)
      ensures metadata == (if r.Some? then r else old(metadata))
    {
      r := FetchMetadata(FRACTIONALIZATION_CONTRACT, None, outcome);
    }
  }
}
