/**
 * The state handling of the air-conditioner control panel (`AcControl`).
 *
 * The panel holds one `AcState` record.  A push message or the result of the
 * initial fetch replaces that record wholesale, with no validation (the parsed
 * JSON is only cast to `AcState`).  Every user intent builds a new record by
 * copying the current one with one field changed, and `sendPost` makes that
 * record the local state at once (an optimistic update), then POSTs it with
 * `currentTemp` removed.  A failed POST is only logged: nothing is rolled back.
 *
 * The transport is abstract: arrivals are events, and the POSTs issued are
 * collected in an outbox, oldest first.
 */
module AcControl {
  import opened Wrappers
  import opened JsNumbers

  /** The device state record.  `mode` and `fanSpeed` hold whatever parseInt produced, NaN included. */
  datatype AcState = AcState(
    onOff: bool,
    mode: IntOrNaN,
    fanSpeed: IntOrNaN,
    currentTemp: Option<real>,
    setTemp: real,
    zone0: bool,
    zone1: bool,
    zone2: bool,
    zone3: bool,
    zone4: bool,
    zone5: bool)

  const MinSetTemp: real := 15.0
  const MaxSetTemp: real := 30.0

  function Max(a: real, b: real): real { if a < b then b else a }
  function Min(a: real, b: real): real { if a < b then a else b }

  // ---------------------------------------------------------------------------
  // Builders: each intent copies the record with one field changed.

  /** The payload `sendPost` serialises: the record with `currentTemp` undefined. */
  function ToSend(s: AcState): (payload: AcState)
    ensures payload.currentTemp == None
    ensures payload.(currentTemp := s.currentTemp) == s
  {
    s.(currentTemp := None)
  }

  /** The record `togglePower` posts. */
  function PowerToggled(s: AcState): (r: AcState)
    ensures r.onOff == !s.onOff
    ensures r.(onOff := s.onOff) == s
  {
    s.(onOff := !s.onOff)
  }

  lemma PowerToggledTwice(s: AcState)
    ensures PowerToggled(PowerToggled(s)) == s
  {
  }

  /**
   * The set temperature after pressing the button with id `buttonId`: the
   * "tempDown" button lowers it by one but not below 15, any other button
   * raises it by one but not above 30.
   */
  function NextSetTemp(setTemp: real, buttonId: string): (t: real)
    ensures buttonId == "tempDown" ==> t == Max(setTemp - 1.0, MinSetTemp)
    ensures buttonId != "tempDown" ==> t == Min(setTemp + 1.0, MaxSetTemp)
  {
    if buttonId == "tempDown" then
      var lowered := setTemp - 1.0;
      if lowered < 15.0 then 15.0 else lowered
    else
      var raised := setTemp + 1.0;
      if raised > 30.0 then 30.0 else raised
  }

  /** A set temperature inside [15, 30] stays inside it, whichever button is pressed. */
  lemma SetTempStaysInRange(setTemp: real, buttonId: string)
    requires MinSetTemp <= setTemp <= MaxSetTemp
    ensures MinSetTemp <= NextSetTemp(setTemp, buttonId) <= MaxSetTemp
  {
  }

  /** The bounds saturate: up from 30 stays 30, down from 15 stays 15. */
  lemma SetTempSaturates(buttonId: string)
    requires buttonId != "tempDown"
    ensures NextSetTemp(30.0, buttonId) == 30.0
    ensures NextSetTemp(15.0, "tempDown") == 15.0
  {
  }

  /**
   * Each button clamps only on its own side: a set temperature above the range
   * (one a push message may carry) is lowered by one, not clamped to 30.
   */
  lemma SetTempClampsOneSide()
    ensures NextSetTemp(35.0, "tempDown") == 34.0
    ensures NextSetTemp(10.0, "tempUp") == 11.0
  {
  }

  /** The record `temperatureUpDown` posts. */
  function TemperatureStepped(s: AcState, buttonId: string): (r: AcState)
    ensures r.setTemp == NextSetTemp(s.setTemp, buttonId)
    ensures r.(setTemp := s.setTemp) == s
  {
    s.(setTemp := NextSetTemp(s.setTemp, buttonId))
  }

  /** The record `handleChangeMode` posts: the selected value through parseInt, unchecked. */
  function ModeChanged(s: AcState, value: string): (r: AcState)
    ensures r.mode == ParseInt(value)
    ensures r.(mode := s.mode) == s
  {
    s.(mode := ParseInt(value))
  }

  /** The record `handleChangeFanSpeed` posts: the selected value through parseInt, unchecked. */
  function FanSpeedChanged(s: AcState, value: string): (r: AcState)
    ensures r.fanSpeed == ParseInt(value)
    ensures r.(fanSpeed := s.fanSpeed) == s
  {
    s.(fanSpeed := ParseInt(value))
  }

  /** The ids of the six zone switches; position k is zone k. */
  const ZoneIds: seq<string> := ["zone0", "zone1", "zone2", "zone3", "zone4", "zone5"]

  /** Whether zone `k` is open in `s`. */
  function Zone(s: AcState, k: nat): bool
    requires k < 6
  {
    if k == 0 then s.zone0 else if k == 1 then s.zone1 else if k == 2 then s.zone2
    else if k == 3 then s.zone3 else if k == 4 then s.zone4 else s.zone5
  }

  /** `a` and `b` agree on every field except possibly the zones. */
  predicate SameExceptZones(a: AcState, b: AcState) {
    a.onOff == b.onOff && a.mode == b.mode && a.fanSpeed == b.fanSpeed
    && a.currentTemp == b.currentTemp && a.setTemp == b.setTemp
  }

  /**
   * The record `handleZoneChanged` posts for switch `zoneId`: when the id is
   * "zoneK" for K in 0..5, zone K becomes `isOpen` and nothing else changes;
   * any other id is only logged and nothing is posted (None).
   */
  function ZoneToggled(s: AcState, zoneId: string, isOpen: bool): (r: Option<AcState>)
    ensures r.Some? ==> SameExceptZones(r.value, s)
  {
    if zoneId == "zone0" then Some(s.(zone0 := isOpen))
    else if zoneId == "zone1" then Some(s.(zone1 := isOpen))
    else if zoneId == "zone2" then Some(s.(zone2 := isOpen))
    else if zoneId == "zone3" then Some(s.(zone3 := isOpen))
    else if zoneId == "zone4" then Some(s.(zone4 := isOpen))
    else if zoneId == "zone5" then Some(s.(zone5 := isOpen))
    else None
  }

  /** The six switch ids differ in their last character, the zone's digit. */
  lemma ZoneIdsDiffer(j: nat, k: nat)
    requires j < k < 6
    ensures ZoneIds[j] != ZoneIds[k]
  {
    assert ZoneIds[j][4] != ZoneIds[k][4];
  }

  /** `s` with zone `k` set to `isOpen`: that zone changes, no other field does. */
  function WithZone(s: AcState, k: nat, isOpen: bool): (r: AcState)
    requires k < 6
    ensures Zone(r, k) == isOpen
    ensures forall j :: 0 <= j < 6 && j != k ==> Zone(r, j) == Zone(s, j)
    ensures SameExceptZones(r, s)
  {
    if k == 0 then s.(zone0 := isOpen) else if k == 1 then s.(zone1 := isOpen)
    else if k == 2 then s.(zone2 := isOpen) else if k == 3 then s.(zone3 := isOpen)
    else if k == 4 then s.(zone4 := isOpen) else s.(zone5 := isOpen)
  }

  /**
   * Switching "zoneK", for K in 0..5, sets zone K to the switch's state and
   * leaves every other zone and every other field as it was.
   */
  lemma ZoneToggledChangesOnlyThatZone(s: AcState, isOpen: bool, k: nat)
    requires k < 6
    ensures ZoneToggled(s, ZoneIds[k], isOpen) == Some(WithZone(s, k, isOpen))
  {
    if k == 0 {
    } else if k == 1 {
      assert "zone1" != "zone0" by { ZoneIdsDiffer(0, 1); }
    } else if k == 2 {
      assert "zone2" != "zone0" && "zone2" != "zone1" by { ZoneIdsDiffer(0, 2); ZoneIdsDiffer(1, 2); }
    } else if k == 3 {
      assert "zone3" != "zone0" && "zone3" != "zone1" && "zone3" != "zone2" by {
        ZoneIdsDiffer(0, 3); ZoneIdsDiffer(1, 3); ZoneIdsDiffer(2, 3);
      }
    } else if k == 4 {
      assert "zone4" != "zone0" && "zone4" != "zone1" && "zone4" != "zone2" && "zone4" != "zone3" by {
        ZoneIdsDiffer(0, 4); ZoneIdsDiffer(1, 4); ZoneIdsDiffer(2, 4); ZoneIdsDiffer(3, 4);
      }
    } else {
      assert "zone5" != "zone0" && "zone5" != "zone1" && "zone5" != "zone2" && "zone5" != "zone3"
        && "zone5" != "zone4" by {
        ZoneIdsDiffer(0, 5); ZoneIdsDiffer(1, 5); ZoneIdsDiffer(2, 5); ZoneIdsDiffer(3, 5); ZoneIdsDiffer(4, 5);
      }
    }
  }

  lemma UnknownZoneIdPostsNothing(s: AcState, zoneId: string, isOpen: bool)
    requires zoneId !in ZoneIds
    ensures ZoneToggled(s, zoneId, isOpen) == None
  {
  }

  // ---------------------------------------------------------------------------
  // The push-channel address.

  /** `pat` occurs in `s` at position `i`. */
  predicate OccursAt(s: string, pat: string, i: int) {
    0 <= i && i + |pat| <= |s| && s[i..i + |pat|] == pat
  }

  /** `i` is the first position at which `pat` occurs in `s`. */
  predicate FirstOccurrenceAt(s: string, pat: string, i: int) {
    OccursAt(s, pat, i) && forall j :: 0 <= j < i ==> !OccursAt(s, pat, j)
  }

  /**
   * JavaScript's `s.replace(pat, rep)` with a string pattern and a replacement
   * containing no `$` (so no `$&`-style substitution applies): only the first
   * occurrence is replaced.
   */
  function ReplaceFirst(s: string, pat: string, rep: string): (r: string)
    ensures (forall i :: 0 <= i <= |s| ==> !OccursAt(s, pat, i)) ==> r == s
    ensures forall i :: FirstOccurrenceAt(s, pat, i) ==> r == s[..i] + rep + s[i + |pat|..]
  {
    if |pat| <= |s| && s[..|pat|] == pat then
      assert OccursAt(s, pat, 0);
      rep + s[|pat|..]
    else if |s| == 0 then
      s
    else
      var r := [s[0]] + ReplaceFirst(s[1..], pat, rep);
      assert (forall i :: 0 <= i <= |s| ==> !OccursAt(s, pat, i)) ==> r == s by {
        if forall i :: 0 <= i <= |s| ==> !OccursAt(s, pat, i) {
          forall i | 0 <= i <= |s[1..]|
            ensures !OccursAt(s[1..], pat, i)
          {
            OccursShift(s, pat, i + 1);
          }
        }
      }
      assert forall i :: FirstOccurrenceAt(s, pat, i) ==> r == s[..i] + rep + s[i + |pat|..] by {
        forall i | FirstOccurrenceAt(s, pat, i)
          ensures r == s[..i] + rep + s[i + |pat|..]
        {
          FirstOccurrenceShift(s, pat, i);
          SpliceShift(s, pat, rep, i);
        }
      }
      r
  }

  /** An occurrence in `s` past position 0 is an occurrence in `s[1..]`, one position earlier. */
  lemma OccursShift(s: string, pat: string, i: int)
    requires |s| > 0 && 1 <= i
    ensures OccursAt(s, pat, i) <==> OccursAt(s[1..], pat, i - 1)
  {
    if i + |pat| <= |s| {
      var a, b := s[i..i + |pat|], s[1..][i - 1..i - 1 + |pat|];
      forall k | 0 <= k < |pat|
        ensures a[k] == b[k]
      {
        assert a[k] == s[i + k] && b[k] == s[1..][i - 1 + k];
      }
      assert a == b;
    }
  }

  lemma FirstOccurrenceShift(s: string, pat: string, i: int)
    requires |s| > 0 && !OccursAt(s, pat, 0) && FirstOccurrenceAt(s, pat, i)
    ensures 1 <= i && FirstOccurrenceAt(s[1..], pat, i - 1)
  {
    OccursShift(s, pat, i);
    forall j | 0 <= j < i - 1
      ensures !OccursAt(s[1..], pat, j)
    {
      OccursShift(s, pat, j + 1);
    }
  }

  /** Replacing in the tail and putting the first character back is replacing in the whole. */
  lemma SpliceShift(s: string, pat: string, rep: string, i: int)
    requires 1 <= i && i + |pat| <= |s|
    ensures [s[0]] + (s[1..][..i - 1] + rep + s[1..][i - 1 + |pat|..]) == s[..i] + rep + s[i + |pat|..]
  {
    assert [s[0]] + s[1..][..i - 1] == s[..i];
    assert s[1..][i - 1 + |pat|..] == s[i + |pat|..];
  }

  /** The push channel's address: the first "http://" of the base address becomes "ws://", then "/ws" is appended. */
  function WebSocketAddress(baseApiUrl: string): (address: string)
    ensures |baseApiUrl| >= 7 && baseApiUrl[..7] == "http://" ==> address == "ws://" + baseApiUrl[7..] + "/ws"
    ensures (forall i :: 0 <= i <= |baseApiUrl| ==> !OccursAt(baseApiUrl, "http://", i)) ==> address == baseApiUrl + "/ws"
  {
    assert |baseApiUrl| >= 7 && baseApiUrl[..7] == "http://" ==> FirstOccurrenceAt(baseApiUrl, "http://", 0);
    ReplaceFirst(baseApiUrl, "http://", "ws://") + "/ws"
  }

  lemma HttpBaseGivesWs(rest: string)
    ensures WebSocketAddress("http://" + rest) == "ws://" + rest + "/ws"
  {
    var s := "http://" + rest;
    assert FirstOccurrenceAt(s, "http://", 0);
    assert s[7..] == rest;
  }

  /** An "https://" base address keeps its scheme: the code maps only "http://", so no "wss://" address is formed. */
  lemma HttpsBaseKeepsScheme(rest: string)
    requires forall i :: 0 <= i <= |rest| ==> !OccursAt(rest, "http://", i)
    ensures WebSocketAddress("https://" + rest) == "https://" + rest + "/ws"
  {
    var s := "https://" + rest;
    assert s[..8] == "https://";
    forall i | 0 <= i <= |s|
      ensures !OccursAt(s, "http://", i)
    {
      if i >= 8 {
        assert !OccursAt(rest, "http://", i - 8);
        OccursPastPrefix(s, rest, i);
      } else {
        NoHttpInHttpsScheme(s, i);
      }
    }
  }

  /** "http://" cannot start inside the scheme "https://". */
  lemma NoHttpInHttpsScheme(s: string, i: int)
    requires |s| >= 8 && s[..8] == "https://" && 0 <= i < 8
    ensures !OccursAt(s, "http://", i)
  {
    if i + 7 <= |s| {
      var w := s[i..i + 7];
      if i == 0 {
        assert w[4] == s[..8][4] == 's';
      } else {
        assert w[0] == s[..8][i] != 'h';
      }
    }
  }

  /** Past an 8-character prefix, an occurrence in `s` is an occurrence in the rest. */
  lemma OccursPastPrefix(s: string, rest: string, i: int)
    requires |s| == 8 + |rest| && s[8..] == rest && i >= 8
    ensures OccursAt(s, "http://", i) ==> OccursAt(rest, "http://", i - 8)
  {
    if i + 7 <= |s| {
      var a, b := s[i..i + 7], rest[i - 8..i - 1];
      forall k | 0 <= k < 7
        ensures a[k] == b[k]
      {
        assert a[k] == s[i + k] && b[k] == rest[i - 8 + k] == s[8..][i - 8 + k];
      }
      assert a == b;
    }
  }

  // ---------------------------------------------------------------------------
  // The panel as a sequence of events.

  /** Everything that can reach the panel's state. */
  datatype Event =
    | Pushed(data: AcState)          // a push message arrives
    | PushUnparsable                 // a push message that is not JSON text arrives
    | Fetched(data: AcState)         // the initial fetch resolves
    | FetchFailed                    // the initial fetch rejects
    | PowerClicked
    | TempClicked(buttonId: string)
    | ModeSelected(value: string)
    | FanSpeedSelected(value: string)
    | ZoneSwitched(zoneId: string, checked: bool)
    | PostFailed                     // a POST issued earlier fails

  predicate IsArrival(e: Event) {
    e.Pushed? || e.Fetched?
  }

  /** The user's actions: each may POST the record it builds. */
  predicate IsIntent(e: Event) {
    e.PowerClicked? || e.TempClicked? || e.ModeSelected? || e.FanSpeedSelected? || e.ZoneSwitched?
  }

  /** The panel's state together with the payloads it has POSTed, oldest first. */
  datatype View = View(state: AcState, outbox: seq<AcState>)

  /** `sendPost`: the new record becomes the state, then its payload is sent. */
  function AfterSendPost(v: View, newAcState: AcState): (w: View)
    ensures w.state == newAcState
    ensures |w.outbox| == |v.outbox| + 1 && w.outbox[..|v.outbox|] == v.outbox
    ensures w.outbox[|v.outbox|] == ToSend(w.state)
  {
    View(newAcState, v.outbox + [ToSend(newAcState)])
  }

  /**
   * What one event does to the view.  Only an intent sends anything, and then
   * exactly one payload: the new state without `currentTemp`.  An arrival
   * replaces the state; a failure of any kind (a push that is not JSON, a
   * rejected fetch, a failed POST) changes nothing.
   */
  function Handle(v: View, e: Event): (w: View)
    ensures !IsIntent(e) ==> w.outbox == v.outbox
    ensures IsArrival(e) ==> w.state == e.data
    ensures !IsIntent(e) && !IsArrival(e) ==> w == v
    ensures w.outbox == v.outbox || AfterSendPost(v, w.state) == w
    ensures e.ZoneSwitched? && e.zoneId !in ZoneIds ==> w == v
  {
    match e
    case Pushed(data) => v.(state := data)
    case PushUnparsable => v
    case Fetched(data) => v.(state := data)
    case FetchFailed => v
    case PowerClicked => AfterSendPost(v, PowerToggled(v.state))
    case TempClicked(buttonId) => AfterSendPost(v, TemperatureStepped(v.state, buttonId))
    case ModeSelected(value) => AfterSendPost(v, ModeChanged(v.state, value))
    case FanSpeedSelected(value) => AfterSendPost(v, FanSpeedChanged(v.state, value))
    case ZoneSwitched(zoneId, checked) =>
      (match ZoneToggled(v.state, zoneId, checked)
       case Some(next) => AfterSendPost(v, next)
       case None => v)
    case PostFailed => v
  }

  /** The view after the events `es`, applied in arrival order. */
  function Run(v: View, es: seq<Event>): View {
    if es == [] then v else Handle(Run(v, es[..|es| - 1]), es[|es| - 1])
  }

  /**
   * A push message or fetch result replaces the state wholesale, whatever came
   * before: the last arrival wins and no field of the old state survives.
   */
  lemma LastArrivalWins(v: View, es: seq<Event>, e: Event)
    requires IsArrival(e)
    ensures Run(v, es + [e]).state == e.data
    ensures Run(v, es + [e]).outbox == Run(v, es).outbox
  {
    assert (es + [e])[..|es|] == es;
  }

  /** There is no ordering between arrivals: a stale fetch result applied after a newer push overwrites it. */
  lemma StaleFetchOverwritesPush(v: View, newer: AcState, older: AcState)
    ensures Run(v, [Pushed(newer), Fetched(older)]).state == older
  {
    assert [Pushed(newer), Fetched(older)][..1] == [Pushed(newer)];
    assert [Pushed(newer)][..0] == [];
  }

  /** A failed POST is not rolled back: the optimistic state stays. */
  lemma FailedPostKeepsOptimisticState(v: View, e: Event)
    ensures Run(v, [e, PostFailed]) == Run(v, [e])
  {
    assert [e, PostFailed][..1] == [e];
  }

  /** A push message that is not JSON text throws before `setAcState`: the previous state is kept. */
  lemma UnparsablePushKeepsState(v: View, es: seq<Event>)
    ensures Run(v, es + [PushUnparsable]) == Run(v, es)
  {
    assert (es + [PushUnparsable])[..|es|] == es;
  }

  /** No payload ever POSTed carries `currentTemp`. */
  lemma {:induction false} OutboxNeverCarriesCurrentTemp(v: View, es: seq<Event>)
    requires forall i :: 0 <= i < |v.outbox| ==> v.outbox[i].currentTemp == None
    ensures forall i :: 0 <= i < |Run(v, es).outbox| ==> Run(v, es).outbox[i].currentTemp == None
  {
    if es != [] {
      OutboxNeverCarriesCurrentTemp(v, es[..|es| - 1]);
    }
  }

  /** Every POST is preceded by the optimistic update: the last payload sent is the current state minus `currentTemp`. */
  lemma {:induction false} OutboxMirrorsIntent(v: View, es: seq<Event>)
    requires es != [] && IsIntent(es[|es| - 1])
    requires !es[|es| - 1].ZoneSwitched? || es[|es| - 1].zoneId in ZoneIds
    ensures |Run(v, es).outbox| == |Run(v, es[..|es| - 1]).outbox| + 1
    ensures Run(v, es).outbox[|Run(v, es).outbox| - 1] == ToSend(Run(v, es).state)
  {
    var e := es[|es| - 1];
    var w := Run(v, es[..|es| - 1]);
    assert Run(v, es) == Handle(w, e);
    if e.ZoneSwitched? {
      assert ZoneToggled(w.state, e.zoneId, e.checked).Some?;
    }
  }

  /** Without arrivals, a set temperature inside [15, 30] stays inside it through any run of intents and failures. */
  lemma {:induction false} SetTempInvariant(v: View, es: seq<Event>)
    requires MinSetTemp <= v.state.setTemp <= MaxSetTemp
    requires forall i :: 0 <= i < |es| ==> !IsArrival(es[i])
    ensures MinSetTemp <= Run(v, es).state.setTemp <= MaxSetTemp
  {
    if es != [] {
      var front := es[..|es| - 1];
      SetTempInvariant(v, front);
      var w := Run(v, front);
      var e := es[|es| - 1];
      assert Run(v, es) == Handle(w, e);
      if e.TempClicked? {
        SetTempStaysInRange(w.state.setTemp, e.buttonId);
      } else if e.ZoneSwitched? {
        match ZoneToggled(w.state, e.zoneId, e.checked)
        case Some(next) => assert SameExceptZones(w.state, next);
        case None =>
      }
    }
  }

  /**
   * The mounted panel: one mutable state record, and the outbox of payloads it
   * has POSTed.  Each handler is specified by `Handle` on the event it reacts to.
   */
  class Component {
    const baseApiUrl: string
    var acState: AcState
    var outbox: seq<AcState>

    function Current(): View
      reads this
    {
      View(acState, outbox)
    }

    /** The address the push channel connects to. */
    function WsAddress(): (address: string)
      reads this
      ensures |baseApiUrl| >= 7 && baseApiUrl[..7] == "http://" ==> address == "ws://" + baseApiUrl[7..] + "/ws"
      ensures |address| >= 3 && address[|address| - 3..] == "/ws"
    {
      WebSocketAddress(baseApiUrl)
    }

    /** Mounting: the state starts as the bundled initial state and nothing has been sent. */
    constructor (baseApiUrl: string, initialState: AcState)
      ensures this.baseApiUrl == baseApiUrl
      ensures Current() == View(initialState, [])
    {
      this.baseApiUrl := baseApiUrl;
      acState := initialState;
      outbox := [];
    }

    /** `ws.onmessage`: the parsed message replaces the state. */
    method OnMessage(data: AcState)
      modifies this
      ensures Current() == Handle(old(Current()), Pushed(data))
    {
      acState := data;
    }

    /** The initial fetch resolving: its result replaces the state. */
    method OnFetched(data: AcState)
      modifies this
      ensures Current() == Handle(old(Current()), Fetched(data))
    {
      acState := data;
    }

    method SendPost(newAcState: AcState)
      modifies this
      ensures Current() == AfterSendPost(old(Current()), newAcState)
    {
      acState := newAcState;
      var toSend := newAcState.(currentTemp := None);
      outbox := outbox + [toSend];
    }

    method TogglePower()
      modifies this
      ensures Current() == Handle(old(Current()), PowerClicked)
    {
      ghost var v := Current();
      assert Handle(v, PowerClicked) == AfterSendPost(v, PowerToggled(acState));
      SendPost(PowerToggled(acState));
    }

    method TemperatureUpDown(buttonId: string)
      modifies this
      ensures Current() == Handle(old(Current()), TempClicked(buttonId))
    {
      var currentSetTemp := acState.setTemp;
      if buttonId == "tempDown" {
        currentSetTemp := currentSetTemp - 1.0;
        if currentSetTemp < 15.0 {
          currentSetTemp := 15.0;
        }
      } else {
        currentSetTemp := currentSetTemp + 1.0;
        if currentSetTemp > 30.0 {
          currentSetTemp := 30.0;
        }
      }
      SendPost(acState.(setTemp := currentSetTemp));
    }

    method HandleChangeMode(value: string)
      modifies this
      ensures Current() == Handle(old(Current()), ModeSelected(value))
    {
      ghost var v := Current();
      assert Handle(v, ModeSelected(value)) == AfterSendPost(v, ModeChanged(acState, value));
      SendPost(ModeChanged(acState, value));
    }

    method HandleChangeFanSpeed(value: string)
      modifies this
      ensures Current() == Handle(old(Current()), FanSpeedSelected(value))
    {
      ghost var v := Current();
      assert Handle(v, FanSpeedSelected(value)) == AfterSendPost(v, FanSpeedChanged(acState, value));
      SendPost(FanSpeedChanged(acState, value));
    }

    method HandleZoneChanged(zoneId: string, isOpen: bool)
      modifies this
      ensures Current() == Handle(old(Current()), ZoneSwitched(zoneId, isOpen))
    {
      match ZoneToggled(acState, zoneId, isOpen)
      case Some(next) => SendPost(next);
      case None =>
    }
  }
}
