/**
 * The Flask relay (server.py): the bounded-retry poller that asks the Pico W
 * for its NFC status, the hose-connection validator, the tag table, the
 * recommendation engine and the configuration cache over the module globals.
 */
module Relay {
  import opened Wrappers
  import opened Js

  // ---------------------------------------------------------------------
  // Peer poller (connect_to_pico, get_nfc_status)
  // ---------------------------------------------------------------------

  const MaxRetries: nat := 3
  const PicoFailureMessage := "Kon geen verbinding maken met Pico W of geen geldige response ontvangen"
  const NfcFaultPrefix := "Fout bij ophalen NFC status: "

  /** What one GET to the Pico W ends in. `Valid` is a JSON object holding
      `tag_detected` (a missing `timestamp` reads as Null); `BadShape` is a
      JSON value that is not an object or lacks `tag_detected`; the other four
      are the exception classes the loop catches (an HTTP error status raised
      by `raise_for_status` falls under `OtherError`). */
  datatype Outcome =
    | Valid(tagDetected: JsVal, timestamp: JsVal)
    | BadShape
    | Timeout
    | ConnError
    | BadJson
    | OtherError

  predicate IsException(o: Outcome) {
    o.Timeout? || o.ConnError? || o.BadJson? || o.OtherError?
  }

  /** The four-field dictionary the poller returns. */
  datatype PollResult = PollResult(tagDetected: JsVal, position: Option<string>, timestamp: JsVal, error: Option<string>)

  const Exhausted := PollResult(Bool(false), None, Null, Some(PicoFailureMessage))

  /** The whole run of the poller: its result, how many GETs it issued and how
      many one-second sleeps it took. */
  datatype PollRun = PollRun(result: PollResult, attempts: nat, sleeps: nat)

  /** The run of the poller from attempt `k` on, for a peer that answers
      attempt `i` with `script[i]`. */
  function PollFrom(script: seq<Outcome>, k: nat): PollRun
    requires |script| >= MaxRetries
    decreases MaxRetries - k
  {
    if k >= MaxRetries then PollRun(Exhausted, 0, 0)
    else
      var rest := PollFrom(script, k + 1);
      match script[k]
      case Valid(t, ts) => PollRun(PollResult(t, Some("unknown"), ts, None), 1, 0)
      case BadShape => PollRun(rest.result, rest.attempts + 1, rest.sleeps)
      case _ => PollRun(rest.result, rest.attempts + 1, rest.sleeps + (if k < MaxRetries - 1 then 1 else 0))
  }

  function Poll(script: seq<Outcome>): PollRun
    requires |script| >= MaxRetries
  {
    PollFrom(script, 0)
  }

  /** connect_to_pico: at most MaxRetries GETs; the first valid body ends the
      loop; a bad shape retries at once; an exception sleeps first unless it
      was the last attempt. */
  method ConnectToPico(script: seq<Outcome>) returns (r: PollResult, attempts: nat, sleeps: nat)
    requires |script| >= MaxRetries
    ensures PollRun(r, attempts, sleeps) == Poll(script)
  {
    attempts, sleeps := 0, 0;
    for attempt := 0 to MaxRetries
      invariant attempts == attempt
      invariant Poll(script) == PollRun(PollFrom(script, attempt).result,
                                        attempts + PollFrom(script, attempt).attempts,
                                        sleeps + PollFrom(script, attempt).sleeps)
    {
      attempts := attempts + 1;
      match script[attempt]
      case Valid(t, ts) =>
        r := PollResult(t, Some("unknown"), ts, None);
        return;
      case BadShape =>
      case _ =>
        if attempt < MaxRetries - 1 {
          sleeps := sleeps + 1;
        }
    }
    r := Exhausted;
  }

  /** Number of exception outcomes among `script[..n]`. */
  function ExceptionsBefore(script: seq<Outcome>, n: nat): nat
    requires n <= |script|
  {
    if n == 0 then 0
    else ExceptionsBefore(script, n - 1) + (if IsException(script[n - 1]) then 1 else 0)
  }

  lemma {:induction false} PollFromBounds(script: seq<Outcome>, k: nat)
    requires |script| >= MaxRetries && k <= MaxRetries
    ensures PollFrom(script, k).attempts <= MaxRetries - k
    ensures PollFrom(script, k).sleeps + 1 <= MaxRetries - k || (k == MaxRetries && PollFrom(script, k).sleeps == 0)
    decreases MaxRetries - k
  {
    if k < MaxRetries {
      PollFromBounds(script, k + 1);
    }
  }

  /** At most MaxRetries GETs and at most MaxRetries - 1 sleeps. */
  lemma PollBounds(script: seq<Outcome>)
    requires |script| >= MaxRetries
    ensures 1 <= Poll(script).attempts <= MaxRetries
    ensures Poll(script).sleeps <= MaxRetries - 1
    ensures Poll(script).sleeps < Poll(script).attempts
  {
    PollFromBounds(script, 0);
    PollFromBounds(script, 1);
  }

  /** No valid body in attempts k.. : the run from k fails with the fixed record,
      uses every remaining attempt and sleeps once per exception before the last. */
  lemma {:induction false} PollFromExhausted(script: seq<Outcome>, k: nat)
    requires |script| >= MaxRetries && k <= MaxRetries
    requires forall i :: k <= i < MaxRetries ==> !script[i].Valid?
    ensures PollFrom(script, k).result == Exhausted
    ensures PollFrom(script, k).attempts == MaxRetries - k
    ensures PollFrom(script, k).sleeps + ExceptionsBefore(script, if k < MaxRetries - 1 then k else MaxRetries - 1)
            == ExceptionsBefore(script, MaxRetries - 1)
    decreases MaxRetries - k
  {
    if k < MaxRetries {
      PollFromExhausted(script, k + 1);
    }
  }

  /** When every attempt fails the result is exactly the fixed failure record,
      after MaxRetries GETs, with one sleep per exception except on the last attempt. */
  lemma PollAllFail(script: seq<Outcome>)
    requires |script| >= MaxRetries
    requires forall i :: 0 <= i < MaxRetries ==> !script[i].Valid?
    ensures Poll(script).result == PollResult(Bool(false), None, Null, Some(PicoFailureMessage))
    ensures Poll(script).attempts == MaxRetries
    ensures Poll(script).sleeps == ExceptionsBefore(script, MaxRetries - 1)
  {
    PollFromExhausted(script, 0);
  }

  /** The first valid body ends the run at once: position "unknown", no error,
      the body's tag_detected and timestamp, after exactly k + 1 GETs. */
  lemma {:induction false} PollFirstValid(script: seq<Outcome>, k: nat)
    requires |script| >= MaxRetries && k < MaxRetries
    requires script[k].Valid?
    requires forall i :: 0 <= i < k ==> !script[i].Valid?
    ensures Poll(script).result == PollResult(script[k].tagDetected, Some("unknown"), script[k].timestamp, None)
    ensures Poll(script).attempts == k + 1
    ensures Poll(script).sleeps == ExceptionsBefore(script, k)
  {
    PollFirstValidFrom(script, k, 0);
  }

  lemma {:induction false} PollFirstValidFrom(script: seq<Outcome>, k: nat, j: nat)
    requires |script| >= MaxRetries && j <= k < MaxRetries
    requires script[k].Valid?
    requires forall i :: j <= i < k ==> !script[i].Valid?
    ensures PollFrom(script, j).result == PollResult(script[k].tagDetected, Some("unknown"), script[k].timestamp, None)
    ensures PollFrom(script, j).attempts == k + 1 - j
    ensures PollFrom(script, j).sleeps + ExceptionsBefore(script, j) == ExceptionsBefore(script, k)
    decreases k - j
  {
    if j < k {
      PollFirstValidFrom(script, k, j + 1);
    }
  }

  /** The poller succeeds exactly when one of the first MaxRetries answers is valid. */
  lemma PollSucceedsIff(script: seq<Outcome>)
    requires |script| >= MaxRetries
    ensures Poll(script).result.error.None? <==> exists i :: 0 <= i < MaxRetries && script[i].Valid?
  {
    if exists i :: 0 <= i < MaxRetries && script[i].Valid? {
      var k := 0;
      while !script[k].Valid?
        invariant 0 <= k < MaxRetries
        invariant forall i :: 0 <= i < k ==> !script[i].Valid?
        invariant exists i :: k <= i < MaxRetries && script[i].Valid?
        decreases MaxRetries - k
      {
        k := k + 1;
      }
      PollFirstValid(script, k);
    } else {
      PollAllFail(script);
    }
  }

  /** HTTP response of GET /api/nfc. */
  datatype NfcResponse = NfcResponse(status: int, body: PollResult)

  /** get_nfc_status: the poller's result with 200, or — when a fault escapes
      the poller itself (given here as `fault`) — 500 with an empty result and
      the fault's text in `error`. */
  method GetNfcStatus(script: seq<Outcome>, fault: Option<string>) returns (resp: NfcResponse)
    requires |script| >= MaxRetries
    ensures fault.None? ==> resp == NfcResponse(200, Poll(script).result)
    ensures fault.Some? ==> resp == NfcResponse(500, PollResult(Bool(false), None, Null, Some(NfcFaultPrefix + fault.value)))
  {
    if fault.Some? {
      return NfcResponse(500, PollResult(Bool(false), None, Null, Some(NfcFaultPrefix + fault.value)));
    }
    var r, _, _ := ConnectToPico(script);
    resp := NfcResponse(200, r);
  }

  // ---------------------------------------------------------------------
  // System type, hoses, validator, tag table
  // ---------------------------------------------------------------------

  datatype SystemType = Single | Double | Leak

  /** The enum's value, as it appears in the configuration's "systemType". */
  function SystemTypeValue(st: SystemType): string {
    match st
    case Single => "single"
    case Double => "double"
    case Leak => "leak"
  }

  datatype Hose = Hose(connected: bool, position: string)
  datatype Hoses = Hoses(supply: Hose, ret: Hose, leak: Hose)

  const DefaultHoses := Hoses(Hose(false, "left"), Hose(false, "right"), Hose(false, "leak"))

  const SingleSupplyMessage := "Bij enkelwerkend systeem moet de aanvoer links worden aangesloten"
  const SingleReturnMessage := "Bij enkelwerkend systeem moet de retour rechts worden aangesloten"
  const LeakMessage := "Le kleiding mag alleen op de specifieke lekaansluiting worden aangesloten"

  /** Reference table: the position a hose type must be at under a system
      type, or None when that combination is unconstrained. */
  function RequiredPosition(st: SystemType, hoseType: string): Option<string> {
    if st == Single && hoseType == "supply" then Some("left")
    else if st == Single && hoseType == "return" then Some("right")
    else if st == Leak && hoseType == "leak" then Some("leak")
    else None
  }

  /** validate_connection against the global system type. */
  function ValidateConnection(st: SystemType, hoseType: string, position: string): (r: (bool, string))
    ensures r.0 <==> (RequiredPosition(st, hoseType).None? || RequiredPosition(st, hoseType).value == position)
    ensures r.0 <==> r.1 == ""
    ensures st == Double ==> r == (true, "")
    ensures st == Single && hoseType == "supply" && position != "left" ==> r == (false, SingleSupplyMessage)
    ensures st == Single && hoseType == "return" && position != "right" ==> r == (false, SingleReturnMessage)
    ensures st == Leak && hoseType == "leak" && position != "leak" ==> r == (false, LeakMessage)
  {
    if st == Single then
      if hoseType == "supply" && position != "left" then (false, SingleSupplyMessage)
      else if hoseType == "return" && position != "right" then (false, SingleReturnMessage)
      else (true, "")
    else if st == Leak then
      if hoseType == "leak" && position != "leak" then (false, LeakMessage)
      else (true, "")
    else (true, "")
  }

  /** Every hose at its default position passes the validator under every system type. */
  lemma DefaultPositionsValid(st: SystemType)
    ensures ValidateConnection(st, "supply", DefaultHoses.supply.position).0
    ensures ValidateConnection(st, "return", DefaultHoses.ret.position).0
    ensures ValidateConnection(st, "leak", DefaultHoses.leak.position).0
  {
  }

  datatype TagInfo = TagInfo(kind: string, purpose: string, connection: string, color: string, maxPressure: string, flowRate: string)

  const TagDatabase: map<string, TagInfo> := map[
    "SUPPLY_LEFT" := TagInfo("Aanvoerslang", "Hydraulische olie naar werktuig", "Ventiel A (links)", "Rood", "300 bar", "60 l/min"),
    "RETURN_RIGHT" := TagInfo("Retourslang", "Olie terug naar tank", "Ventiel B (rechts)", "Blauw", "300 bar", "60 l/min"),
    "LEAK" := TagInfo("Lekleiding", "Afvoer lekkage-olie", "Ventiel C (lekaansluiting)", "Geel", "10 bar", "5 l/min")
  ]

  const UnknownTag := TagInfo("Onbekend", "Onbekend", "Onbekend", "Onbekend", "Onbekend", "Onbekend")

  /** get_tag_info: the table entry, or the all-"Onbekend" record. The
      fallback is recognisable: its type is "Onbekend" exactly for unknown ids. */
  function GetTagInfo(tagId: string): (r: TagInfo)
    ensures tagId in TagDatabase ==> r == TagDatabase[tagId]
    ensures tagId !in TagDatabase ==> r == UnknownTag
    ensures r.kind == "Onbekend" <==> tagId !in TagDatabase
  {
    if tagId in TagDatabase then TagDatabase[tagId] else UnknownTag
  }

  // ---------------------------------------------------------------------
  // Recommendation engine (get_system_recommendations)
  // ---------------------------------------------------------------------

  const SupplyWarning := "Waarschuwing: Aanvoerslang is niet aangesloten"
  const ReturnWarning := "Waarschuwing: Retourslang is niet aangesloten"
  const LeakLabel := "Systeem met lekleiding"
  const DoubleLabel := "Dubbelwerkend systeem"
  const SingleLabel := "Enkelwerkend systeem"

  datatype Recommendations = Recommendations(systemType: string, requiredHoses: int, maxPressure: string, requiredFlow: string, warnings: seq<string>)

  /** The label is chosen from the hoses alone; the global system type
      plays no part (the function's local name shadows it). */
  function GetRecommendations(h: Hoses): (r: Recommendations)
    ensures SupplyWarning in r.warnings <==> !h.supply.connected
    ensures ReturnWarning in r.warnings <==> !h.ret.connected
    ensures |r.warnings| == (if h.supply.connected then 0 else 1) + (if h.ret.connected then 0 else 1)
    ensures !h.supply.connected && !h.ret.connected ==> r.warnings == [SupplyWarning, ReturnWarning]
    ensures r.systemType == LeakLabel <==> h.leak.connected
    ensures r.systemType == DoubleLabel <==> !h.leak.connected && h.supply.connected && h.ret.connected
    ensures r.systemType == SingleLabel <==> !h.leak.connected && !(h.supply.connected && h.ret.connected)
    ensures r.requiredHoses == 3 <==> h.leak.connected
    ensures r.requiredHoses == 2 <==> !h.leak.connected
    ensures r.maxPressure == "300 bar" && r.requiredFlow == "60 l/min"
  {
    var warnings := (if h.supply.connected then [] else [SupplyWarning]) + (if h.ret.connected then [] else [ReturnWarning]);
    if h.leak.connected then Recommendations(LeakLabel, 3, "300 bar", "60 l/min", warnings)
    else if h.supply.connected && h.ret.connected then Recommendations(DoubleLabel, 2, "300 bar", "60 l/min", warnings)
    else Recommendations(SingleLabel, 2, "300 bar", "60 l/min", warnings)
  }

  // ---------------------------------------------------------------------
  // Configuration table and cache (update_configuration, get_config)
  // ---------------------------------------------------------------------

  datatype Parameters = Parameters(pressure: int, flowRate: int, temperature: int, maxPressure: int)

  /** The numeric branch of update_configuration. */
  function ParametersFor(st: SystemType): (p: Parameters)
    ensures 0 < p.pressure < p.maxPressure
    ensures p.maxPressure - p.pressure == 50
    ensures st == Single <==> p.maxPressure == 300
    ensures st == Double <==> p.maxPressure == 350
    ensures st == Leak <==> p.maxPressure == 250
  {
    match st
    case Single => Parameters(250, 60, 40, 300)
    case Double => Parameters(300, 80, 45, 350)
    case Leak => Parameters(200, 50, 35, 250)
  }

  /** The hose dictionary of the module globals: one mutable object, shared
      by every configuration built from it. */
  class HoseTable {
    var supply: Hose
    var ret: Hose
    var leak: Hose

    function Snapshot(): Hoses
      reads this
    {
      Hoses(supply, ret, leak)
    }

    constructor ()
      ensures Snapshot() == DefaultHoses
    {
      supply, ret, leak := DefaultHoses.supply, DefaultHoses.ret, DefaultHoses.leak;
    }
  }

  /** The cached configuration record. `connections` is the live hose table
      itself, not a copy; the recommendations are a value computed once. */
  datatype Config = Config(params: Parameters, systemType: string, connections: HoseTable, recommendations: Recommendations)

  /** The record update_configuration builds from the globals. */
  function Derive(st: SystemType, table: HoseTable): Config
    reads table
  {
    Config(ParametersFor(st), SystemTypeValue(st), table, GetRecommendations(table.Snapshot()))
  }

  /** The JSON that jsonify produces from a configuration at the time of the
      response: the hose table is read then, everything else was fixed when
      the record was built. */
  datatype ConfigJson = ConfigJson(params: Parameters, systemType: string, connections: Hoses, recommendations: Recommendations)

  function Render(cfg: Config): ConfigJson
    reads cfg.connections
  {
    ConfigJson(cfg.params, cfg.systemType, cfg.connections.Snapshot(), cfg.recommendations)
  }

  /** The module globals of server.py. */
  class RelayState {
    var systemType: SystemType
    const hoses: HoseTable
    var currentConfig: Option<Config>

    /** Every configuration ever cached points at the global hose table. */
    ghost predicate Valid()
      reads this
    {
      currentConfig.Some? ==> currentConfig.value.connections == hoses
    }

    constructor ()
      ensures Valid()
      ensures systemType == Single && currentConfig == None
      ensures fresh(hoses) && hoses.Snapshot() == DefaultHoses
    {
      systemType := Single;
      hoses := new HoseTable();
      currentConfig := None;
    }

    /** update_configuration: rebuilds the cache from the current globals. */
    method UpdateConfiguration()
      requires Valid()
      modifies this`currentConfig
      ensures Valid()
      ensures currentConfig == Some(Derive(systemType, hoses))
    {
      currentConfig := Some(Derive(systemType, hoses));
    }

    /** get_config: builds the configuration on the first call only, then
        answers every later call from the cache. */
    method GetConfig() returns (out: ConfigJson)
      requires Valid()
      modifies this`currentConfig
      ensures Valid()
      ensures old(currentConfig).None? ==> currentConfig == Some(Derive(systemType, hoses))
      ensures old(currentConfig).Some? ==> currentConfig == old(currentConfig)
      ensures currentConfig.Some? && out == Render(currentConfig.value)
    {
      if currentConfig.None? {
        UpdateConfiguration();
      }
      out := Render(currentConfig.value);
    }
  }

  /** The cache is filled once and never invalidated: the first call on the
      initial globals answers the SINGLE configuration of the default hoses,
      and a second call answers exactly the same. */
  method GetConfigTwice(s: RelayState) returns (first: ConfigJson, second: ConfigJson)
    requires s.Valid() && s.currentConfig.None? && s.systemType == Single && s.hoses.Snapshot() == DefaultHoses
    modifies s
    ensures first == second
    ensures first.params == Parameters(250, 60, 40, 300) && first.systemType == "single"
    ensures first.connections == DefaultHoses
    ensures first.recommendations.systemType == SingleLabel
    ensures first.recommendations.warnings == [SupplyWarning, ReturnWarning]
  {
    first := s.GetConfig();
    second := s.GetConfig();
  }

  /** The recommendation constants and the numeric table are two sources of
      truth: the recommendations' "300 bar" matches the numeric maxPressure
      only under SINGLE. */
  lemma DualSourceOfTruth(st: SystemType, h: Hoses)
    ensures GetRecommendations(h).maxPressure == "300 bar"
    ensures ParametersFor(st).maxPressure == 300 <==> st == Single
  {
  }
}
