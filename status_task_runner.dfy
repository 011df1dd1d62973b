/**
  The status task runner: a fixed conversation with the pump that reads its
  status in a set order, keeping each reply in its own slot of a status
  result, and hands the result on once the cartridge amount has arrived.

  `run` is called first with no message, then with each reply in turn; it
  returns the next request to send, or none when the sequence has ended.
*/
module StatusTasks {
  import opened Wrappers
  import opened StatusMessages

  /** A status reply whose fields the runner only passes on (its layout is not part of this model). */
  datatype OpaqueMessage = OpaqueMessage(payload: seq<byte>)

  /** The kinds of request the runner sends; each reply answers one of them. */
  datatype Request =
    | PumpStatusRequest
    | ActiveBolusesRequest
    | CurrentTBRRequest
    | CurrentBasalRequest
    | BatteryAmountRequest
    | CartridgeAmountRequest

  /** A reply handed to `run`. */
  datatype Response =
    | PumpStatusResponse(pumpStatus: PumpStatusMessage)
    | ActiveBolusesResponse(activeBoluses: OpaqueMessage)
    | CurrentTBRResponse(currentTBR: OpaqueMessage)
    | CurrentBasalResponse(currentBasal: CurrentBasalMessage)
    | BatteryAmountResponse(batteryAmount: OpaqueMessage)
    | CartridgeAmountResponse(cartridgeAmount: OpaqueMessage)
    | OtherResponse(service: Service, command: int)

  /** The request a reply is of the same kind as; none for a message of another kind. */
  function KindOf(message: Response): (r: Option<Request>) {
    match message
    case PumpStatusResponse(_) => Some(PumpStatusRequest)
    case ActiveBolusesResponse(_) => Some(ActiveBolusesRequest)
    case CurrentTBRResponse(_) => Some(CurrentTBRRequest)
    case CurrentBasalResponse(_) => Some(CurrentBasalRequest)
    case BatteryAmountResponse(_) => Some(BatteryAmountRequest)
    case CartridgeAmountResponse(_) => Some(CartridgeAmountRequest)
    case OtherResponse(_, _) => None
  }

  /** The six replies collected so far; a slot stays None until its reply arrives. */
  datatype StatusResult = StatusResult(
    pumpStatusMessage: Option<PumpStatusMessage>,
    activeBolusesMessage: Option<OpaqueMessage>,
    currentTBRMessage: Option<OpaqueMessage>,
    currentBasalMessage: Option<CurrentBasalMessage>,
    batteryAmountMessage: Option<OpaqueMessage>,
    cartridgeAmountMessage: Option<OpaqueMessage>)

  const EMPTY_RESULT: StatusResult := StatusResult(None, None, None, None, None, None)

  /** The reply held in the slot of kind `slot`, as a reply. */
  function Get(result: StatusResult, slot: Request): (r: Option<Response>) {
    match slot
    case PumpStatusRequest =>
      if result.pumpStatusMessage.Some? then Some(PumpStatusResponse(result.pumpStatusMessage.value)) else None
    case ActiveBolusesRequest =>
      if result.activeBolusesMessage.Some? then Some(ActiveBolusesResponse(result.activeBolusesMessage.value)) else None
    case CurrentTBRRequest =>
      if result.currentTBRMessage.Some? then Some(CurrentTBRResponse(result.currentTBRMessage.value)) else None
    case CurrentBasalRequest =>
      if result.currentBasalMessage.Some? then Some(CurrentBasalResponse(result.currentBasalMessage.value)) else None
    case BatteryAmountRequest =>
      if result.batteryAmountMessage.Some? then Some(BatteryAmountResponse(result.batteryAmountMessage.value)) else None
    case CartridgeAmountRequest =>
      if result.cartridgeAmountMessage.Some? then Some(CartridgeAmountResponse(result.cartridgeAmountMessage.value)) else None
  }

  /** The request `run` answers a call with: the first call asks for the pump status. */
  function NextRequest(message: Option<Response>): (r: Option<Request>) {
    match message
    case None => Some(PumpStatusRequest)
    case Some(PumpStatusResponse(m)) =>
      if m.pumpStatus != Some(Stopped) then Some(ActiveBolusesRequest) else Some(BatteryAmountRequest)
    case Some(ActiveBolusesResponse(_)) => Some(CurrentTBRRequest)
    case Some(CurrentTBRResponse(_)) => Some(CurrentBasalRequest)
    case Some(CurrentBasalResponse(_)) => Some(BatteryAmountRequest)
    case Some(BatteryAmountResponse(_)) => Some(CartridgeAmountRequest)
    case Some(CartridgeAmountResponse(_)) => None
    case Some(OtherResponse(_, _)) => None
  }

  /** The result after `run` has kept a reply. */
  function Stored(result: StatusResult, message: Response): (r: StatusResult) {
    match message
    case PumpStatusResponse(m) => result.(pumpStatusMessage := Some(m))
    case ActiveBolusesResponse(m) => result.(activeBolusesMessage := Some(m))
    case CurrentTBRResponse(m) => result.(currentTBRMessage := Some(m))
    case CurrentBasalResponse(m) => result.(currentBasalMessage := Some(m))
    case BatteryAmountResponse(m) => result.(batteryAmountMessage := Some(m))
    case CartridgeAmountResponse(m) => result.(cartridgeAmountMessage := Some(m))
    case OtherResponse(_, _) => result
  }

  /**
    Keeping a reply fills exactly the slot of its kind with it and leaves the
    other five as they were; a message of another kind changes nothing.
  */
  lemma StoredFillsOnlyItsSlot(result: StatusResult, message: Response)
    ensures forall slot :: Get(Stored(result, message), slot)
                        == if KindOf(message) == Some(slot) then Some(message) else Get(result, slot)
    ensures KindOf(message).None? ==> Stored(result, message) == result
  {
  }

  /**
    The order of requests: each reply of a kind the runner sent leads to the
    request that follows it, the cartridge amount ends the sequence, and the
    pump status picks between the full path and the stopped-pump path.
  */
  lemma RequestOrder(message: Response)
    ensures NextRequest(None) == Some(PumpStatusRequest)
    ensures NextRequest(Some(message)).None? <==> (message.CartridgeAmountResponse? || message.OtherResponse?)
    ensures message.PumpStatusResponse? ==>
      (NextRequest(Some(message)) == Some(BatteryAmountRequest) <==> message.pumpStatus.pumpStatus == Some(Stopped))
    ensures NextRequest(Some(message)) != Some(PumpStatusRequest)
  {
  }

  /**
    The runner: the result it is filling and, in order, the results it has
    handed to `finish`.
  */
  class StatusTaskRunner {
    var statusResult: StatusResult
    var delivered: seq<StatusResult>

    constructor ()
      ensures statusResult == EMPTY_RESULT && delivered == []
    {
      statusResult := EMPTY_RESULT;
      delivered := [];
    }

    /** Hands the finished result to whoever started the runner. */
    method Finish(result: StatusResult)
      modifies this`delivered
      ensures delivered == old(delivered) + [result]
    {
      delivered := delivered + [result];
    }

    /** One step of the conversation. */
    method Run(message: Option<Response>) returns (next: Option<Request>)
      modifies this
      ensures next == NextRequest(message)
      ensures statusResult == if message.Some? then Stored(old(statusResult), message.value) else old(statusResult)
      ensures delivered == if message.Some? && message.value.CartridgeAmountResponse?
                           then old(delivered) + [statusResult] else old(delivered)
    {
      next := None;
      if message.None? {
        return Some(PumpStatusRequest);
      }
      match message.value
      case PumpStatusResponse(m) =>
        statusResult := statusResult.(pumpStatusMessage := Some(m));
        if statusResult.pumpStatusMessage.value.pumpStatus != Some(Stopped) {
          next := Some(ActiveBolusesRequest);
        } else {
          next := Some(BatteryAmountRequest);
        }
      case ActiveBolusesResponse(m) =>
        statusResult := statusResult.(activeBolusesMessage := Some(m));
        next := Some(CurrentTBRRequest);
      case CurrentTBRResponse(m) =>
        statusResult := statusResult.(currentTBRMessage := Some(m));
        next := Some(CurrentBasalRequest);
      case CurrentBasalResponse(m) =>
        statusResult := statusResult.(currentBasalMessage := Some(m));
        next := Some(BatteryAmountRequest);
      case BatteryAmountResponse(m) =>
        statusResult := statusResult.(batteryAmountMessage := Some(m));
        next := Some(CartridgeAmountRequest);
      case CartridgeAmountResponse(m) =>
        statusResult := statusResult.(cartridgeAmountMessage := Some(m));
        Finish(statusResult);
      case OtherResponse(_, _) =>
    }

    /**
      Hands `responses` to `run` one after another, as the transport does with
      the pump's replies, and collects the requests `run` returns.
    */
    method Feed(responses: seq<Response>) returns (requests: seq<Option<Request>>)
      modifies this
      ensures var s := Converse(old(statusResult), responses);
        && requests == s.requests && statusResult == s.result && delivered == old(delivered) + s.delivered
    {
      ghost var whole := Converse(statusResult, responses);
      ghost var handed: seq<StatusResult> := [];
      requests := [];
      for i := 0 to |responses|
        invariant var rest := Converse(statusResult, responses[i..]);
          && requests + rest.requests == whole.requests
          && rest.result == whole.result
          && delivered == old(delivered) + handed
          && handed + rest.delivered == whole.delivered
      {
        ghost var out := if responses[i].CartridgeAmountResponse? then [Stored(statusResult, responses[i])] else [];
        FeedStep(requests, handed, statusResult, responses, i, whole);
        var next := Run(Some(responses[i]));
        requests := requests + [next];
        handed := handed + out;
      }
      assert responses[|responses|..] == [];
    }
  }

  // ---------------------------------------------------------------------------
  // Whole conversations
  // ---------------------------------------------------------------------------

  /** What a run of calls produced: each call's request, the last result, the results handed on. */
  datatype Session = Session(requests: seq<Option<Request>>, result: StatusResult, delivered: seq<StatusResult>)

  /** Feeding `responses` to `run` one by one, starting from `result`. */
  function Converse(result: StatusResult, responses: seq<Response>): (s: Session)
    ensures |s.requests| == |responses|
    decreases |responses|
  {
    if responses == [] then Session([], result, [])
    else
      var kept := Stored(result, responses[0]);
      var rest := Converse(kept, responses[1..]);
      Session([NextRequest(Some(responses[0]))] + rest.requests, rest.result,
              (if responses[0].CartridgeAmountResponse? then [kept] else []) + rest.delivered)
  }

  /**
    The pump answered every request with a reply of the requested kind: the
    first reply is the pump status, and each later one answers the request
    its predecessor led to.
  */
  predicate Conforming(responses: seq<Response>) {
    && |responses| >= 1
    && KindOf(responses[0]) == Some(PumpStatusRequest)
    && forall i :: 0 <= i < |responses| - 1 ==>
         NextRequest(Some(responses[i])).Some? && KindOf(responses[i + 1]) == NextRequest(Some(responses[i]))
  }

  /** One step of a conversation. */
  lemma ConverseStep(result: StatusResult, responses: seq<Response>, k: nat)
    requires k < |responses|
    ensures Converse(result, responses[k..]).requests == [NextRequest(Some(responses[k]))] + Converse(Stored(result, responses[k]), responses[k + 1..]).requests
    ensures Converse(result, responses[k..]).result == Converse(Stored(result, responses[k]), responses[k + 1..]).result
    ensures Converse(result, responses[k..]).delivered
         == (if responses[k].CartridgeAmountResponse? then [Stored(result, responses[k])] else [])
            + Converse(Stored(result, responses[k]), responses[k + 1..]).delivered
  {
    assert responses[k..][0] == responses[k];
    assert responses[k..][1..] == responses[k + 1..];
  }

  /** The bookkeeping of one call in `Feed`: what has been returned and handed on, plus the rest, is the whole. */
  lemma FeedStep(requests: seq<Option<Request>>, handed: seq<StatusResult>, result: StatusResult,
                 responses: seq<Response>, i: nat, whole: Session)
    requires i < |responses|
    requires requests + Converse(result, responses[i..]).requests == whole.requests
    requires Converse(result, responses[i..]).result == whole.result
    requires handed + Converse(result, responses[i..]).delivered == whole.delivered
    ensures var kept := Stored(result, responses[i]);
      var after := Converse(kept, responses[i + 1..]);
      && (requests + [NextRequest(Some(responses[i]))]) + after.requests == whole.requests
      && after.result == whole.result
      && (handed + (if responses[i].CartridgeAmountResponse? then [kept] else [])) + after.delivered == whole.delivered
  {
    ConverseStep(result, responses, i);
    var kept := Stored(result, responses[i]);
    var after := Converse(kept, responses[i + 1..]);
    var out := if responses[i].CartridgeAmountResponse? then [kept] else [];
    assert (requests + [NextRequest(Some(responses[i]))]) + after.requests
        == requests + ([NextRequest(Some(responses[i]))] + after.requests);
    assert (handed + out) + after.delivered == handed + (out + after.delivered);
  }

  /** A conforming conversation's reply at `i + 1` is of the kind its predecessor requested. */
  lemma ConformingAt(responses: seq<Response>, i: nat)
    requires Conforming(responses) && i + 1 < |responses|
    ensures NextRequest(Some(responses[i])).Some?
    ensures KindOf(responses[i + 1]) == NextRequest(Some(responses[i]))
  {
  }

  /** In a conforming conversation nothing follows a cartridge amount, which requests nothing. */
  lemma ConformingEndsAtCartridge(responses: seq<Response>)
    requires Conforming(responses)
    ensures forall i :: 0 <= i < |responses| - 1 ==> !responses[i].CartridgeAmountResponse?
  {
    forall i | 0 <= i < |responses| - 1
      ensures !responses[i].CartridgeAmountResponse?
    {
      ConformingAt(responses, i);
    }
  }

  /** The kinds of reply a conforming conversation with a running pump consists of. */
  lemma RunningPumpKinds(responses: seq<Response>)
    requires Conforming(responses)
    requires responses[0].pumpStatus.pumpStatus != Some(Stopped)
    ensures |responses| <= 6
    ensures |responses| > 1 ==> responses[1].ActiveBolusesResponse?
    ensures |responses| > 2 ==> responses[2].CurrentTBRResponse?
    ensures |responses| > 3 ==> responses[3].CurrentBasalResponse?
    ensures |responses| > 4 ==> responses[4].BatteryAmountResponse?
    ensures |responses| > 5 ==> responses[5].CartridgeAmountResponse?
  {
    var n := |responses|;
    if n > 1 { ConformingAt(responses, 0); }
    if n > 2 { ConformingAt(responses, 1); }
    if n > 3 { ConformingAt(responses, 2); }
    if n > 4 { ConformingAt(responses, 3); }
    if n > 5 { ConformingAt(responses, 4); }
    ConformingEndsAtCartridge(responses);
  }

  /** The last two replies of either path: battery amount, then cartridge amount. */
  lemma BatteryCartridgeTail(result: StatusResult, rest: seq<Response>)
    requires |rest| == 2 && rest[0].BatteryAmountResponse? && rest[1].CartridgeAmountResponse?
    ensures var r := result.(batteryAmountMessage := Some(rest[0].batteryAmount),
                             cartridgeAmountMessage := Some(rest[1].cartridgeAmount));
      Converse(result, rest) == Session([Some(CartridgeAmountRequest), None], r, [r])
  {
    assert rest[2..] == [];
    assert rest[0..] == rest;
    ConverseStep(Stored(result, rest[0]), rest, 1);
    ConverseStep(result, rest, 0);
  }

  /** The last three replies of a running pump: current basal, battery amount, cartridge amount. */
  lemma BasalBatteryCartridgeTail(result: StatusResult, rest: seq<Response>)
    requires |rest| == 3 && rest[0].CurrentBasalResponse?
    requires rest[1].BatteryAmountResponse? && rest[2].CartridgeAmountResponse?
    ensures var r := result.(currentBasalMessage := Some(rest[0].currentBasal),
                             batteryAmountMessage := Some(rest[1].batteryAmount),
                             cartridgeAmountMessage := Some(rest[2].cartridgeAmount));
      Converse(result, rest) == Session([Some(BatteryAmountRequest), Some(CartridgeAmountRequest), None], r, [r])
  {
    BatteryCartridgeTail(Stored(result, rest[0]), rest[1..]);
    assert rest[0..] == rest;
    ConverseStep(result, rest, 0);
  }

  /** The session of the six-reply conversation of a running pump, replies given by kind. */
  lemma FullSession(responses: seq<Response>)
    requires |responses| == 6
    requires responses[0].PumpStatusResponse? && responses[0].pumpStatus.pumpStatus != Some(Stopped)
    requires responses[1].ActiveBolusesResponse? && responses[2].CurrentTBRResponse?
    requires responses[3].CurrentBasalResponse? && responses[4].BatteryAmountResponse?
    requires responses[5].CartridgeAmountResponse?
    ensures var r := StatusResult(Some(responses[0].pumpStatus), Some(responses[1].activeBoluses),
                                  Some(responses[2].currentTBR), Some(responses[3].currentBasal),
                                  Some(responses[4].batteryAmount), Some(responses[5].cartridgeAmount));
      Converse(EMPTY_RESULT, responses)
        == Session([Some(ActiveBolusesRequest), Some(CurrentTBRRequest), Some(CurrentBasalRequest),
                    Some(BatteryAmountRequest), Some(CartridgeAmountRequest), None], r, [r])
  {
    var r0 := EMPTY_RESULT;
    var r1 := StatusResult(Some(responses[0].pumpStatus), None, None, None, None, None);
    var r2 := r1.(activeBolusesMessage := Some(responses[1].activeBoluses));
    var r3 := r2.(currentTBRMessage := Some(responses[2].currentTBR));
    var r6 := r3.(currentBasalMessage := Some(responses[3].currentBasal),
                  batteryAmountMessage := Some(responses[4].batteryAmount),
                  cartridgeAmountMessage := Some(responses[5].cartridgeAmount));
    assert Converse(r3, responses[3..])
        == Session([Some(BatteryAmountRequest), Some(CartridgeAmountRequest), None], r6, [r6]) by {
      BasalBatteryCartridgeTail(r3, responses[3..]);
    }
    assert Converse(r2, responses[2..])
        == Session([Some(CurrentBasalRequest), Some(BatteryAmountRequest), Some(CartridgeAmountRequest), None], r6, [r6]) by {
      ConverseStep(r2, responses, 2);
      assert Stored(r2, responses[2]) == r3;
    }
    assert Converse(r1, responses[1..])
        == Session([Some(CurrentTBRRequest), Some(CurrentBasalRequest), Some(BatteryAmountRequest),
                    Some(CartridgeAmountRequest), None], r6, [r6]) by {
      ConverseStep(r1, responses, 1);
      assert Stored(r1, responses[1]) == r2;
    }
    assert Converse(r0, responses)
        == Session([Some(ActiveBolusesRequest), Some(CurrentTBRRequest), Some(CurrentBasalRequest),
                    Some(BatteryAmountRequest), Some(CartridgeAmountRequest), None], r6, [r6]) by {
      ConverseStep(r0, responses, 0);
      assert Stored(r0, responses[0]) == r1;
      assert responses[0..] == responses;
    }
  }

  /** The six-reply conversation of a running pump, replies given by kind. */
  lemma FullConversation(responses: seq<Response>)
    requires |responses| == 6
    requires responses[0].PumpStatusResponse? && responses[0].pumpStatus.pumpStatus != Some(Stopped)
    requires responses[1].ActiveBolusesResponse? && responses[2].CurrentTBRResponse?
    requires responses[3].CurrentBasalResponse? && responses[4].BatteryAmountResponse?
    requires responses[5].CartridgeAmountResponse?
    ensures var s := Converse(EMPTY_RESULT, responses);
      && s.requests == [Some(ActiveBolusesRequest), Some(CurrentTBRRequest), Some(CurrentBasalRequest),
                        Some(BatteryAmountRequest), Some(CartridgeAmountRequest), None]
      && Get(s.result, PumpStatusRequest) == Some(responses[0])
      && Get(s.result, ActiveBolusesRequest) == Some(responses[1])
      && Get(s.result, CurrentTBRRequest) == Some(responses[2])
      && Get(s.result, CurrentBasalRequest) == Some(responses[3])
      && Get(s.result, BatteryAmountRequest) == Some(responses[4])
      && Get(s.result, CartridgeAmountRequest) == Some(responses[5])
      && s.delivered == [s.result]
  {
    FullSession(responses);
  }

  /**
    With a running pump (any status but STOPPED) a conforming conversation has
    at most six replies; with all six it has requested, in order, active
    boluses, current TBR, current basal, battery and cartridge, then nothing,
    filled every slot with its reply, and handed the result on once.
  */
  lemma RunningPumpConversation(responses: seq<Response>)
    requires Conforming(responses)
    requires responses[0].pumpStatus.pumpStatus != Some(Stopped)
    ensures |responses| <= 6
    ensures |responses| == 6 ==>
      var s := Converse(EMPTY_RESULT, responses);
      && s.requests == [Some(ActiveBolusesRequest), Some(CurrentTBRRequest), Some(CurrentBasalRequest),
                        Some(BatteryAmountRequest), Some(CartridgeAmountRequest), None]
      && Get(s.result, PumpStatusRequest) == Some(responses[0])
      && Get(s.result, ActiveBolusesRequest) == Some(responses[1])
      && Get(s.result, CurrentTBRRequest) == Some(responses[2])
      && Get(s.result, CurrentBasalRequest) == Some(responses[3])
      && Get(s.result, BatteryAmountRequest) == Some(responses[4])
      && Get(s.result, CartridgeAmountRequest) == Some(responses[5])
      && s.delivered == [s.result]
  {
    RunningPumpKinds(responses);
    if |responses| == 6 {
      FullConversation(responses);
    }
  }

  /** The kinds of reply a conforming conversation with a stopped pump consists of. */
  lemma StoppedPumpKinds(responses: seq<Response>)
    requires Conforming(responses)
    requires responses[0].pumpStatus.pumpStatus == Some(Stopped)
    ensures |responses| <= 3
    ensures |responses| > 1 ==> responses[1].BatteryAmountResponse?
    ensures |responses| > 2 ==> responses[2].CartridgeAmountResponse?
  {
    var n := |responses|;
    if n > 1 { ConformingAt(responses, 0); }
    if n > 2 { ConformingAt(responses, 1); }
    ConformingEndsAtCartridge(responses);
  }

  /** The three-reply conversation of a stopped pump, replies given by kind. */
  lemma ShortConversation(responses: seq<Response>)
    requires |responses| == 3
    requires responses[0].PumpStatusResponse? && responses[0].pumpStatus.pumpStatus == Some(Stopped)
    requires responses[1].BatteryAmountResponse? && responses[2].CartridgeAmountResponse?
    ensures var s := Converse(EMPTY_RESULT, responses);
      && s.requests == [Some(BatteryAmountRequest), Some(CartridgeAmountRequest), None]
      && Get(s.result, PumpStatusRequest) == Some(responses[0])
      && Get(s.result, BatteryAmountRequest) == Some(responses[1])
      && Get(s.result, CartridgeAmountRequest) == Some(responses[2])
      && Get(s.result, ActiveBolusesRequest).None?
      && Get(s.result, CurrentTBRRequest).None?
      && Get(s.result, CurrentBasalRequest).None?
      && s.delivered == [s.result]
  {
    var r0 := EMPTY_RESULT;
    var r1 := Stored(r0, responses[0]);
    var r3 := r1.(batteryAmountMessage := Some(responses[1].batteryAmount),
                  cartridgeAmountMessage := Some(responses[2].cartridgeAmount));
    assert Converse(r1, responses[1..]) == Session([Some(CartridgeAmountRequest), None], r3, [r3]) by {
      BatteryCartridgeTail(r1, responses[1..]);
    }
    assert Converse(r0, responses)
        == Session([Some(BatteryAmountRequest), Some(CartridgeAmountRequest), None], r3, [r3]) by {
      ConverseStep(r0, responses, 0);
      assert responses[0..] == responses;
    }
  }

  /**
    With a stopped pump a conforming conversation has at most three replies;
    with all three it has requested battery and cartridge, then nothing, filled
    the status, battery and cartridge slots, left the bolus, TBR and basal slots
    empty, and handed the result on once.
  */
  lemma StoppedPumpConversation(responses: seq<Response>)
    requires Conforming(responses)
    requires responses[0].pumpStatus.pumpStatus == Some(Stopped)
    ensures |responses| <= 3
    ensures |responses| == 3 ==>
      var s := Converse(EMPTY_RESULT, responses);
      && s.requests == [Some(BatteryAmountRequest), Some(CartridgeAmountRequest), None]
      && Get(s.result, PumpStatusRequest) == Some(responses[0])
      && Get(s.result, BatteryAmountRequest) == Some(responses[1])
      && Get(s.result, CartridgeAmountRequest) == Some(responses[2])
      && Get(s.result, ActiveBolusesRequest).None?
      && Get(s.result, CurrentTBRRequest).None?
      && Get(s.result, CurrentBasalRequest).None?
      && s.delivered == [s.result]
  {
    StoppedPumpKinds(responses);
    if |responses| == 3 {
      ShortConversation(responses);
    }
  }
}
