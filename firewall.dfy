/**
  The firewall in front of the pump's remote-control commands.

  Each outbound application-layer message is looked up in a static table that
  names the boolean preference allowing its kind. Kinds the table does not
  list pass (fail-open). A listed kind whose preference is false, or unset,
  is blocked. A bolus kind may additionally need the user's authorization:
  a positive amount that fits the sliding-window quota passes and is recorded
  in the window, and anything else escalates to a single-slot authorization
  handshake with a 20 second timeout.

  Amounts are integer milli-units. The clock is explicit: `now` for the
  decision, and for the wait a trace of polls, each carrying the clock
  reading and the authorization messages, in order, that the user interface
  delivered since the previous poll.
*/
module Firewall {
  import opened Wrappers
  import opened Text
  import opened SlidingWindow

  const USER_AUTHORIZATION_SPECIAL_CASE: string := "USER_AUTHORIZATION"
  const USER_AUTHORIZATION_SPECIAL_CASE_DELIMITER: char := '^'
  const AUTH_TIMEOUT_MS: int := 20000
  const BOLUS_WINDOW_IDENTIFIER: string := "generic-bolus-restriction"
  /** The quota limit when "sliding-window-limit" is unset or unreadable. */
  const DEFAULT_LIMIT: int := 0
  /** The window length when "sliding-window-ms" is unset or unreadable: one day. */
  const DEFAULT_WINDOW_MS: int := 86400000

  const ALLOW_STANDARD_BOLUS: string := "firewall_allow_standard_bolus"
  const ALLOW_EXTENDED_BOLUS: string := "firewall_allow_extended_bolus"
  const ALLOW_TEMPORARY_BASAL: string := "firewall_allow_temporary_basal"
  const PASSWORD_BOLUSES: string := "firewall_password_boluses"

  /** The message class, as the tables key it. */
  datatype MessageKind =
    | StandardBolus | ExtendedBolus | MultiwaveBolus
    | ChangeTBR | SetTBR | CancelTBR
    | OtherKind(className: string)

  /**
    An outbound application-layer message: the remote-control kinds the
    firewall knows, with the amounts it reads, and every other message class.
  */
  datatype AppMessage =
    | StandardBolusMessage(amount: int)
    | ExtendedBolusMessage(amount: int)
    | MultiwaveBolusMessage(amount: int, delayedAmount: int)
    | ChangeTBRMessage
    | SetTBRMessage
    | CancelTBRMessage
    | OtherMessage(className: string)
  {
    function Kind(): MessageKind {
      match this
      case StandardBolusMessage(_) => StandardBolus
      case ExtendedBolusMessage(_) => ExtendedBolus
      case MultiwaveBolusMessage(_, _) => MultiwaveBolus
      case ChangeTBRMessage => ChangeTBR
      case SetTBRMessage => SetTBR
      case CancelTBRMessage => CancelTBR
      case OtherMessage(name) => OtherKind(name)
    }
  }

  /** Kinds restricted by an allow preference, and the preference each is restricted by. */
  const BlockLookup: map<MessageKind, string> := map[
    StandardBolus := ALLOW_STANDARD_BOLUS,
    ExtendedBolus := ALLOW_EXTENDED_BOLUS,
    MultiwaveBolus := ALLOW_EXTENDED_BOLUS,
    ChangeTBR := ALLOW_TEMPORARY_BASAL,
    SetTBR := ALLOW_TEMPORARY_BASAL,
    CancelTBR := ALLOW_TEMPORARY_BASAL]

  /** Kinds that may additionally need authorization, and the preference that turns it on. */
  const AuthLookup: map<MessageKind, string> := map[
    StandardBolus := PASSWORD_BOLUSES,
    ExtendedBolus := PASSWORD_BOLUSES,
    MultiwaveBolus := PASSWORD_BOLUSES]

  /** `Pref.getBooleanDefaultFalse`: an unset preference reads as false. */
  predicate GetBooleanDefaultFalse(prefs: map<string, bool>, key: string) {
    key in prefs && prefs[key]
  }

  /**
    The preferences after `initializeDefaults`: every allow preference the
    block table names and the store leaves unset becomes true; nothing else
    changes.
  */
  function WithDefaults(prefs: map<string, bool>): (r: map<string, bool>)
    ensures forall key :: key in r <==> key in prefs || key in BlockLookup.Values
    ensures forall key :: key in prefs ==> r[key] == prefs[key]
    ensures forall key :: key in r && key !in prefs ==> r[key]
  {
    prefs + map key | key in BlockLookup.Values && key !in prefs :: true
  }

  /**
    After initialization every listed kind is allowed unless its preference was
    explicitly set to false: the firewall fails open.
  */
  lemma DefaultsFailOpen(prefs: map<string, bool>, m: AppMessage)
    requires m.Kind() in BlockLookup
    ensures GetBooleanDefaultFalse(WithDefaults(prefs), BlockLookup[m.Kind()])
        <==> (BlockLookup[m.Kind()] !in prefs || prefs[BlockLookup[m.Kind()]])
  {
    assert BlockLookup[m.Kind()] in BlockLookup.Values;
  }

  /** The insulin a message delivers, in milli-units: 0 for anything but a bolus. */
  function BolusValue(m: AppMessage): (r: int) {
    match m
    case StandardBolusMessage(amount) => amount
    case ExtendedBolusMessage(amount) => amount
    case MultiwaveBolusMessage(amount, delayed) => amount + delayed
    case _ => 0
  }

  /**
    The quota-value derivation covers every kind that can need authorization,
    and only those kinds carry a quota value.
  */
  lemma QuotaValueCoversGatedKinds(m: AppMessage)
    ensures m.Kind() in AuthLookup <==> m.StandardBolusMessage? || m.ExtendedBolusMessage? || m.MultiwaveBolusMessage?
    ensures m.Kind() !in AuthLookup ==> BolusValue(m) == 0
    ensures m.MultiwaveBolusMessage? ==> BolusValue(m) == m.amount + m.delayedAmount
  {
  }

  /** The reason shown to the user: only standard boluses are described. */
  function DescriptionFromAppLayer(m: AppMessage): (r: string) {
    if m.StandardBolusMessage? then "Standard Bolus" + " " + AmountText(m.amount) + "U" else ""
  }

  /**
    A standard bolus is described as "Standard Bolus <amount>U" and the amount
    can be read back from the text; every other message gets no description.
  */
  lemma DescriptionShowsAmount(m: AppMessage)
    ensures var s := DescriptionFromAppLayer(m);
      m.StandardBolusMessage? ==>
        && StartsWith(s, "Standard Bolus ")
        && s[|s| - 1] == 'U'
        && ParseAmount(s[15..|s| - 1]) == Some(m.amount)
    ensures !m.StandardBolusMessage? ==> DescriptionFromAppLayer(m) == ""
  {
    if m.StandardBolusMessage? {
      var s := DescriptionFromAppLayer(m);
      assert s == "Standard Bolus " + AmountText(m.amount) + "U";
      assert s[15..|s| - 1] == AmountText(m.amount);
      AmountTextRoundTrip(m.amount);
    }
  }

  /** Where the decision cascade stands before any quota or authorization state is consulted. */
  datatype Gate =
    | DefaultAllow                      // null message, or a kind the block table does not list
    | Blocked                           // listed, and its allow preference is false or unset
    | Allowed                           // allowed, and no authorization required
    | NeedsAuthorization(amount: int)   // allowed, but authorization is required for `amount`

  /** The preference part of `isAllowed`'s cascade. */
  function Classify(prefs: map<string, bool>, msg: Option<AppMessage>): (g: Gate)
    ensures g == DefaultAllow <==> msg.None? || msg.value.Kind() !in BlockLookup
    ensures g == Blocked <==>
      msg.Some? && msg.value.Kind() in BlockLookup && !GetBooleanDefaultFalse(prefs, BlockLookup[msg.value.Kind()])
    ensures g.NeedsAuthorization? <==>
      && msg.Some? && msg.value.Kind() in BlockLookup && GetBooleanDefaultFalse(prefs, BlockLookup[msg.value.Kind()])
      && msg.value.Kind() in AuthLookup && GetBooleanDefaultFalse(prefs, AuthLookup[msg.value.Kind()])
    ensures g.NeedsAuthorization? ==> g.amount == BolusValue(msg.value)
  {
    if msg.None? then DefaultAllow
    else
      var kind := msg.value.Kind();
      if kind !in BlockLookup then DefaultAllow
      else if !GetBooleanDefaultFalse(prefs, BlockLookup[kind]) then Blocked
      else if kind in AuthLookup && GetBooleanDefaultFalse(prefs, AuthLookup[kind]) then
        NeedsAuthorization(BolusValue(msg.value))
      else Allowed
  }

  /**
    A kind whose allow preference is false is blocked whatever the amount and
    whatever the authorization preference says.
  */
  lemma BlockedIgnoresAuthorization(prefs: map<string, bool>, m: AppMessage, authRequired: bool)
    requires m.Kind() in BlockLookup && !GetBooleanDefaultFalse(prefs, BlockLookup[m.Kind()])
    ensures Classify(prefs, Some(m)) == Blocked
    ensures Classify(prefs[PASSWORD_BOLUSES := authRequired], Some(m)) == Blocked
  {
  }

  // ---------------------------------------------------------------------------
  // Authorization messages
  // ---------------------------------------------------------------------------

  /**
    The (token, decision) an authorization message carries, or None when
    `parseAuthorization` ignores it: it must start with USER_AUTHORIZATION and
    tokenize on '^' into exactly three tokens, the third being "true" or
    "false". The first token is not compared with the prefix.
  */
  function ParsedAuthorization(msg: string): (r: Option<(string, bool)>) {
    if !StartsWith(msg, USER_AUTHORIZATION_SPECIAL_CASE) then None
    else
      var tokens := Tokens(msg, USER_AUTHORIZATION_SPECIAL_CASE_DELIMITER);
      if |tokens| != 3 || |tokens[1]| == 0 then None
      else if tokens[2] == "true" then Some((tokens[1], true))
      else if tokens[2] == "false" then Some((tokens[1], false))
      else None
  }

  /** The authorization table after one message: only a well-formed message writes, and only its token. */
  function AfterMessage(auths: map<string, bool>, msg: string): (r: map<string, bool>)
    ensures ParsedAuthorization(msg).None? ==> r == auths
    ensures ParsedAuthorization(msg).Some? ==>
      var (uuid, decision) := ParsedAuthorization(msg).value;
      && r.Keys == auths.Keys + {uuid} && r[uuid] == decision
      && forall t :: t in auths && t != uuid ==> r[t] == auths[t]
  {
    match ParsedAuthorization(msg)
    case Some((uuid, decision)) => auths[uuid := decision]
    case None => auths
  }

  /** The message the user interface sends for a decision on `uuid`. */
  function AuthorizationMessage(uuid: string, approved: bool): (r: string) {
    Join([USER_AUTHORIZATION_SPECIAL_CASE, uuid, if approved then "true" else "false"],
         USER_AUTHORIZATION_SPECIAL_CASE_DELIMITER)
  }

  /** A prefixed message whose three tokens are known is parsed from those tokens. */
  lemma ParsedFromTokens(msg: string, uuid: string, approved: bool)
    requires StartsWith(msg, USER_AUTHORIZATION_SPECIAL_CASE) && |uuid| > 0
    requires Tokens(msg, USER_AUTHORIZATION_SPECIAL_CASE_DELIMITER)
          == [USER_AUTHORIZATION_SPECIAL_CASE, uuid, if approved then "true" else "false"]
    ensures ParsedAuthorization(msg) == Some((uuid, approved))
  {
  }

  /** Every decision the user interface sends for a well-formed token is read back as sent. */
  lemma AuthorizationMessageRoundTrip(uuid: string, approved: bool)
    requires |uuid| > 0 && USER_AUTHORIZATION_SPECIAL_CASE_DELIMITER !in uuid
    ensures ParsedAuthorization(AuthorizationMessage(uuid, approved)) == Some((uuid, approved))
  {
    var d := USER_AUTHORIZATION_SPECIAL_CASE_DELIMITER;
    var value := if approved then "true" else "false";
    var tokens := [USER_AUTHORIZATION_SPECIAL_CASE, uuid, value];
    var msg := AuthorizationMessage(uuid, approved);
    assert Tokens(msg, d) == tokens by {
      assert d !in USER_AUTHORIZATION_SPECIAL_CASE;
      assert d !in value;
      TokensOfJoin(tokens, d);
    }
    assert StartsWith(msg, USER_AUTHORIZATION_SPECIAL_CASE) by {
      assert msg == USER_AUTHORIZATION_SPECIAL_CASE + ([d] + Join(tokens[1..], d));
    }
    ParsedFromTokens(msg, uuid, approved);
  }

  /** A message without the prefix, or with a decision other than "true"/"false", changes nothing. */
  lemma MalformedAuthorizationIgnored(auths: map<string, bool>, msg: string)
    requires !StartsWith(msg, USER_AUTHORIZATION_SPECIAL_CASE)
          || (var t := Tokens(msg, USER_AUTHORIZATION_SPECIAL_CASE_DELIMITER);
              |t| != 3 || (t[2] != "true" && t[2] != "false"))
    ensures AfterMessage(auths, msg) == auths
  {
  }

  // ---------------------------------------------------------------------------
  // The authorization wait
  // ---------------------------------------------------------------------------

  /**
    One turn of the wait loop: the authorization messages the user interface
    delivered, in order, since the previous turn, and the clock reading.
  */
  datatype Poll = Poll(incoming: seq<string>, time: int)

  /** A request handed to the user interface: the token and the reason shown. */
  datatype AuthRequest = AuthRequest(uuid: string, reason: string)

  /** The clock passes the timeout at some poll of the trace. */
  predicate ReachesDeadline(polls: seq<Poll>, start: int) {
    exists i :: 0 <= i < |polls| && polls[i].time - start >= AUTH_TIMEOUT_MS
  }

  /** The message is a well-formed decision for `token`. */
  predicate DecidesFor(msg: string, token: string) {
    ParsedAuthorization(msg).Some? && ParsedAuthorization(msg).value.0 == token
  }

  /** The table after the user interface's deliveries of one turn, applied in order. */
  function Deliver(auths: map<string, bool>, incoming: seq<string>): (r: map<string, bool>)
    decreases |incoming|
  {
    if incoming == [] then auths
    else AfterMessage(Deliver(auths, incoming[..|incoming| - 1]), incoming[|incoming| - 1])
  }

  /**
    After a turn's deliveries, the entry for `token` is either the one it had
    before or the decision of one of the messages.
  */
  lemma {:induction false} DeliveredEntryHasASource(auths: map<string, bool>, incoming: seq<string>, token: string)
    requires token in Deliver(auths, incoming)
    decreases |incoming|
    ensures (token in auths && Deliver(auths, incoming)[token] == auths[token])
         || exists j :: 0 <= j < |incoming|
                        && ParsedAuthorization(incoming[j]) == Some((token, Deliver(auths, incoming)[token]))
  {
    if incoming != [] {
      var n := |incoming| - 1;
      var before := Deliver(auths, incoming[..n]);
      if !DecidesFor(incoming[n], token) {
        assert token in before && Deliver(auths, incoming)[token] == before[token];
        DeliveredEntryHasASource(auths, incoming[..n], token);
        if !(token in auths && before[token] == auths[token]) {
          var j :| 0 <= j < n && ParsedAuthorization(incoming[..n][j]) == Some((token, before[token]));
          assert incoming[..n][j] == incoming[j];
        }
      }
    }
  }

  /** Deliveries none of which decides for `token` do not create an entry for it. */
  lemma {:induction false} UndecidedStaysAbsent(auths: map<string, bool>, incoming: seq<string>, token: string)
    requires token !in auths
    requires forall j :: 0 <= j < |incoming| ==> !DecidesFor(incoming[j], token)
    decreases |incoming|
    ensures token !in Deliver(auths, incoming)
  {
    if incoming != [] {
      var n := |incoming| - 1;
      assert forall j :: 0 <= j < n ==> incoming[..n][j] == incoming[j];
      UndecidedStaysAbsent(auths, incoming[..n], token);
    }
  }

  /** The last decision for `token` among a turn's deliveries is the one the table holds. */
  lemma {:induction false} LastDecisionWins(auths: map<string, bool>, incoming: seq<string>, token: string, k: nat, approved: bool)
    requires k < |incoming| && ParsedAuthorization(incoming[k]) == Some((token, approved))
    requires forall j :: k < j < |incoming| ==> !DecidesFor(incoming[j], token)
    decreases |incoming|
    ensures token in Deliver(auths, incoming) && Deliver(auths, incoming)[token] == approved
  {
    var n := |incoming| - 1;
    if k < n {
      assert forall j :: k < j < n ==> incoming[..n][j] == incoming[j];
      LastDecisionWins(auths, incoming[..n], token, k, approved);
    }
  }

  /**
    Where the wait loop started at `start` stops: the decision it returns and
    the table it leaves before the token is consumed. A poll at or after the
    timeout stops it with false; otherwise a recorded decision for the token
    stops it with that decision.
  */
  function Await(auths: map<string, bool>, token: string, start: int, polls: seq<Poll>): (r: (bool, map<string, bool>))
    decreases |polls|
  {
    if polls == [] then (false, auths)
    else
      var a := Deliver(auths, polls[0].incoming);
      if polls[0].time - start >= AUTH_TIMEOUT_MS then (false, a)
      else if token in a then (a[token], a)
      else Await(a, token, start, polls[1..])
  }

  /**
    The wait approves only on an approval for this token recorded before the
    timeout: one delivered before a poll within the timeout, or one already in
    the table.
  */
  lemma {:induction false} AwaitApprovesOnlyWhenApproved(auths: map<string, bool>, token: string, start: int, polls: seq<Poll>)
    requires Await(auths, token, start, polls).0
    decreases |polls|
    ensures (token in auths && auths[token])
         || exists i, j :: 0 <= i < |polls| && polls[i].time - start < AUTH_TIMEOUT_MS
                           && 0 <= j < |polls[i].incoming|
                           && ParsedAuthorization(polls[i].incoming[j]) == Some((token, true))
  {
    var a := Deliver(auths, polls[0].incoming);
    if !(token in auths && auths[token]) {
      if token in a && a[token] {
        DeliveredEntryHasASource(auths, polls[0].incoming, token);
        var j :| 0 <= j < |polls[0].incoming| && ParsedAuthorization(polls[0].incoming[j]) == Some((token, true));
      } else {
        AwaitApprovesOnlyWhenApproved(a, token, start, polls[1..]);
        var i, j :| 0 <= i < |polls[1..]| && polls[1..][i].time - start < AUTH_TIMEOUT_MS
                    && 0 <= j < |polls[1..][i].incoming|
                    && ParsedAuthorization(polls[1..][i].incoming[j]) == Some((token, true));
        assert polls[i + 1] == polls[1..][i];
      }
    }
  }

  /**
    A decision for the token delivered before the poll at `i`, with every poll
    up to `i` within the timeout and no earlier delivery deciding for the
    token, is the decision the wait returns. When the decision comes at a
    later poll the token must not be in the table at the start, which holds
    for a fresh token.
  */
  lemma {:induction false} ApprovalInTimeIsReturned(auths: map<string, bool>, token: string, start: int, polls: seq<Poll>,
                                                    i: nat, k: nat, approved: bool)
    requires |token| > 0 && USER_AUTHORIZATION_SPECIAL_CASE_DELIMITER !in token
    requires i == 0 || token !in auths
    requires i < |polls| && forall j :: 0 <= j <= i ==> polls[j].time - start < AUTH_TIMEOUT_MS
    requires k < |polls[i].incoming| && polls[i].incoming[k] == AuthorizationMessage(token, approved)
    requires forall m :: k < m < |polls[i].incoming| ==> !DecidesFor(polls[i].incoming[m], token)
    requires forall j, m :: 0 <= j < i && 0 <= m < |polls[j].incoming| ==> !DecidesFor(polls[j].incoming[m], token)
    decreases i
    ensures Await(auths, token, start, polls).0 == approved
  {
    if i == 0 {
      AuthorizationMessageRoundTrip(token, approved);
      LastDecisionWins(auths, polls[0].incoming, token, k, approved);
    } else {
      UndecidedStaysAbsent(auths, polls[0].incoming, token);
      var a := Deliver(auths, polls[0].incoming);
      assert polls[0].time - start < AUTH_TIMEOUT_MS;
      assert forall j :: 0 <= j < |polls| - 1 ==> polls[1..][j] == polls[j + 1];
      ApprovalInTimeIsReturned(a, token, start, polls[1..], i - 1, k, approved);
    }
  }

  /** A pending authorization blocks a new one for twice the timeout after it started. */
  predicate SlotBusy(pending: Option<string>, waitingAuth: int, now: int) {
    pending.Some? && now - waitingAuth < 2 * AUTH_TIMEOUT_MS
  }

  /**
    The firewall. `pendingUuid` and `waitingAuth` are the single process-wide
    authorization slot; `requested` records the requests dispatched to the
    user interface.
  */
  class FirewallConstraint {
    var prefs: map<string, bool>
    var window: SlidingWindowConstraint
    var authorizations: map<string, bool>
    var pendingUuid: Option<string>
    var waitingAuth: int
    var requested: seq<AuthRequest>

    ghost predicate Valid()
      reads this, window
    {
      && window.Valid() && window.persist && window.identifier == BOLUS_WINDOW_IDENTIFIER
      // the quota records are what the preference store holds for the window
      && window.records == window.saved.GetOr([])
    }

    /**
      Builds the firewall from the preference store: `storedPrefs` holds its
      boolean preferences, `limit` and `windowMs` the parsed quota settings
      (None when unset or unreadable) and `storedRecords` the persisted quota
      records. A quota setting that the window rejects makes construction throw.
    */
    constructor (storedPrefs: map<string, bool>, limit: Option<int>, windowMs: Option<int>,
                 storedRecords: Option<seq<Record>>)
      requires CheckConfig(limit.GetOr(DEFAULT_LIMIT), windowMs.GetOr(DEFAULT_WINDOW_MS),
                           Some(BOLUS_WINDOW_IDENTIFIER)) == None
      ensures Valid() && fresh(window)
      ensures prefs == WithDefaults(storedPrefs)
      ensures window.max == limit.GetOr(DEFAULT_LIMIT) && window.period == windowMs.GetOr(DEFAULT_WINDOW_MS)
      ensures window.records == (if storedRecords.Some? then storedRecords.value else [])
      ensures authorizations == map[] && pendingUuid == None && waitingAuth == 0 && requested == []
    {
      prefs := storedPrefs;
      authorizations := map[];
      pendingUuid := None;
      waitingAuth := 0;
      requested := [];
      window := new SlidingWindowConstraint(limit.GetOr(DEFAULT_LIMIT), windowMs.GetOr(DEFAULT_WINDOW_MS),
                                            BOLUS_WINDOW_IDENTIFIER, true, storedRecords);
      new;
      InitializeDefaults();
    }

    /**
      Re-reads the preferences, which `storedPrefs`, `limit` and `windowMs` now
      hold, and rebuilds the quota window, which reloads the records it
      persisted. The defaults are not applied again. The preferences are
      replaced before the window is built, so a quota setting the window
      rejects leaves the new preferences beside the old window and reports the
      window's error, which the source throws.
    */
    method ParsePreference(storedPrefs: map<string, bool>, limit: Option<int>, windowMs: Option<int>)
      returns (err: Option<ConfigError>)
      requires Valid()
      modifies this
      ensures Valid()
      ensures err == CheckConfig(limit.GetOr(DEFAULT_LIMIT), windowMs.GetOr(DEFAULT_WINDOW_MS),
                                 Some(BOLUS_WINDOW_IDENTIFIER))
      ensures prefs == storedPrefs
      ensures err.Some? ==> window == old(window)
      ensures err.None? ==> && fresh(window)
                            && window.max == limit.GetOr(DEFAULT_LIMIT)
                            && window.period == windowMs.GetOr(DEFAULT_WINDOW_MS)
      ensures window.records == old(window.records)
      ensures authorizations == old(authorizations) && pendingUuid == old(pendingUuid)
      ensures waitingAuth == old(waitingAuth) && requested == old(requested)
    {
      prefs := storedPrefs;
      err := CheckConfig(limit.GetOr(DEFAULT_LIMIT), windowMs.GetOr(DEFAULT_WINDOW_MS), Some(BOLUS_WINDOW_IDENTIFIER));
      if err.None? {
        window := new SlidingWindowConstraint(limit.GetOr(DEFAULT_LIMIT), windowMs.GetOr(DEFAULT_WINDOW_MS),
                                              BOLUS_WINDOW_IDENTIFIER, true, window.saved);
      }
    }

    /** Sets every unset allow preference named in the block table to true. */
    method InitializeDefaults()
      modifies this`prefs
      ensures prefs == WithDefaults(old(prefs))
    {
      var todo := BlockLookup.Keys;
      while todo != {}
        invariant todo <= BlockLookup.Keys
        invariant forall key :: key in prefs <==>
          key in old(prefs) || exists k :: k in BlockLookup.Keys - todo && BlockLookup[k] == key
        invariant forall key :: key in old(prefs) ==> prefs[key] == old(prefs)[key]
        invariant forall key :: key in prefs && key !in old(prefs) ==> prefs[key]
        decreases todo
      {
        var kind :| kind in todo;
        var key := BlockLookup[kind];
        if key !in prefs {
          prefs := prefs[key := true];
        }
        todo := todo - {kind};
      }
      var expected := WithDefaults(old(prefs));
      assert forall key :: key in prefs <==> key in expected;
      assert prefs == expected;
    }

    /** Records the decision an authorization message carries, if it is well formed. */
    method ParseAuthorization(msg: string)
      modifies this`authorizations
      ensures authorizations == AfterMessage(old(authorizations), msg)
    {
      if StartsWith(msg, USER_AUTHORIZATION_SPECIAL_CASE) {
        var tokens := Tokens(msg, USER_AUTHORIZATION_SPECIAL_CASE_DELIMITER);
        if |tokens| == 3 {
          var uuid, value := tokens[1], tokens[2];
          if |uuid| > 0 {
            if value == "true" {
              authorizations := authorizations[uuid := true];
            } else if value == "false" {
              authorizations := authorizations[uuid := false];
            }
          }
        }
      }
    }

    /**
      The decision for one outbound message at `now`. `token` is the fresh
      correlation token an escalation would use and `polls` the trace its wait
      would see.
    */
    method IsAllowed(msg: Option<AppMessage>, now: int, token: string, polls: seq<Poll>) returns (allowed: bool)
      requires Valid()
      requires ReachesDeadline(polls, now)
      modifies this, window
      ensures Valid()
      ensures prefs == old(prefs) && window == old(window)
      ensures !Classify(prefs, msg).NeedsAuthorization? ==>
        && allowed == (Classify(prefs, msg) != Blocked)
        && unchanged(this)
        && window.records == old(window.records) && window.saved == old(window.saved)
      ensures Classify(prefs, msg).NeedsAuthorization? ==>
        var amount := Classify(prefs, msg).amount;
        if amount > 0 && Accepts(old(window.records), window.max, window.period, amount, now) then
          && allowed
          && window.records == Pruned(old(window.records) + [Record(now, amount)], now - window.period)
          && window.saved == Some(window.records)
          && unchanged(this)
        else
          && window.records == old(window.records) && window.saved == old(window.saved)
          && (SlotBusy(old(pendingUuid), old(waitingAuth), now) ==> !allowed && unchanged(this))
          && (!SlotBusy(old(pendingUuid), old(waitingAuth), now) ==>
                && allowed == Await(old(authorizations), token, now, polls).0
                && authorizations == Await(old(authorizations), token, now, polls).1 - {token}
                && pendingUuid == None && waitingAuth == now
                && requested == old(requested) + [AuthRequest(token, DescriptionFromAppLayer(msg.value))])
    {
      if msg.None? {
        return true;
      }
      var m := msg.value;
      var kind := m.Kind();
      if kind !in BlockLookup {
        return true;
      }
      var allow := GetBooleanDefaultFalse(prefs, BlockLookup[kind]);
      if allow && kind in AuthLookup && GetBooleanDefaultFalse(prefs, AuthLookup[kind]) {
        var amount := BolusValue(m);
        if amount > 0 {
          var ok := window.CheckAndAddIfAcceptable(amount, now);
          if ok {
            return true;
          }
        }
        allowed := BusyWaitForAuthorization(DescriptionFromAppLayer(m), now, token, polls);
        return;
      }
      return allow;
    }

    /**
      Escalates to the user: refuses at once while another authorization is
      pending, otherwise takes the slot, waits, consumes the token's entry and
      frees the slot.
    */
    method BusyWaitForAuthorization(reason: string, now: int, token: string, polls: seq<Poll>) returns (result: bool)
      requires ReachesDeadline(polls, now)
      modifies this
      ensures prefs == old(prefs) && window == old(window)
      ensures SlotBusy(old(pendingUuid), old(waitingAuth), now) ==> !result && unchanged(this)
      ensures !SlotBusy(old(pendingUuid), old(waitingAuth), now) ==>
        && result == Await(old(authorizations), token, now, polls).0
        && authorizations == Await(old(authorizations), token, now, polls).1 - {token}
        && pendingUuid == None && waitingAuth == now
        && requested == old(requested) + [AuthRequest(token, reason)]
    {
      var claimed := ClaimSlot(reason, now, token);
      if !claimed {
        return false;
      }
      result := AwaitDecision(polls);
    }

    /** The guarded part of the escalation: take the slot unless it is busy, and dispatch the request. */
    method ClaimSlot(reason: string, now: int, token: string) returns (claimed: bool)
      modifies this`pendingUuid, this`waitingAuth, this`requested
      ensures claimed == !SlotBusy(old(pendingUuid), old(waitingAuth), now)
      ensures claimed ==> pendingUuid == Some(token) && waitingAuth == now
                          && requested == old(requested) + [AuthRequest(token, reason)]
      ensures !claimed ==> unchanged(this)
    {
      if pendingUuid.Some? && now - waitingAuth < AUTH_TIMEOUT_MS * 2 {
        return false;
      }
      pendingUuid := Some(token);
      requested := requested + [AuthRequest(token, reason)];
      waitingAuth := now;
      return true;
    }

    /** Handles, in order, the authorization messages delivered during one sleep of the wait loop. */
    method ReceiveAll(incoming: seq<string>)
      modifies this`authorizations
      ensures authorizations == Deliver(old(authorizations), incoming)
    {
      for k := 0 to |incoming|
        invariant authorizations == Deliver(old(authorizations), incoming[..k])
      {
        assert incoming[..k + 1][..k] == incoming[..k];
        ParseAuthorization(incoming[k]);
      }
      assert incoming[..|incoming|] == incoming;
    }

    /** The wait loop, then the consumption of the pending token and the release of the slot. */
    method AwaitDecision(polls: seq<Poll>) returns (result: bool)
      requires pendingUuid.Some? && ReachesDeadline(polls, waitingAuth)
      modifies this`authorizations, this`pendingUuid
      ensures var (decision, auths) := Await(old(authorizations), old(pendingUuid).value, waitingAuth, polls);
        && result == decision
        && authorizations == auths - {old(pendingUuid).value}
      ensures pendingUuid == None
    {
      var token := pendingUuid.value;
      var target := Await(authorizations, token, waitingAuth, polls);
      result := false;
      var i, done := 0, false;
      while !done && i < |polls|
        invariant 0 <= i <= |polls|
        invariant pendingUuid == Some(token)
        invariant !done ==> !result && Await(authorizations, token, waitingAuth, polls[i..]) == target
        invariant done ==> (result, authorizations) == target
        decreases |polls| - i + (if done then 0 else 1)
      {
        assert polls[i..][1..] == polls[i + 1..];
        ReceiveAll(polls[i].incoming);
        if polls[i].time - waitingAuth >= AUTH_TIMEOUT_MS {
          done := true;
        } else if token in authorizations {
          result := authorizations[token];
          done := true;
        } else {
          i := i + 1;
        }
      }
      authorizations := authorizations - {token};
      pendingUuid := None;
    }
  }
  /**
    Constructing the firewall from the preference store: the window's
    configuration error when the quota settings are rejected, which the source
    throws before any default is written, and otherwise the new firewall.
  */
  method Open(storedPrefs: map<string, bool>, limit: Option<int>, windowMs: Option<int>,
              storedRecords: Option<seq<Record>>) returns (r: Result<FirewallConstraint, ConfigError>)
    ensures var check := CheckConfig(limit.GetOr(DEFAULT_LIMIT), windowMs.GetOr(DEFAULT_WINDOW_MS),
                                     Some(BOLUS_WINDOW_IDENTIFIER));
      && (r.Failure? <==> check.Some?)
      && (r.Failure? ==> r.error == check.value)
    ensures r.Success? ==>
      var f := r.value;
      && fresh(f) && fresh(f.window) && f.Valid()
      && f.prefs == WithDefaults(storedPrefs)
      && f.window.max == limit.GetOr(DEFAULT_LIMIT) && f.window.period == windowMs.GetOr(DEFAULT_WINDOW_MS)
      && f.window.records == (if storedRecords.Some? then storedRecords.value else [])
      && f.authorizations == map[] && f.pendingUuid == None && f.waitingAuth == 0 && f.requested == []
  {
    var check := CheckConfig(limit.GetOr(DEFAULT_LIMIT), windowMs.GetOr(DEFAULT_WINDOW_MS),
                             Some(BOLUS_WINDOW_IDENTIFIER));
    if check.Some? {
      return Failure(check.value);
    }
    var f := new FirewallConstraint(storedPrefs, limit, windowMs, storedRecords);
    return Success(f);
  }
}
