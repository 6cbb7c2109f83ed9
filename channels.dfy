/**
 * The fixed tables of the Toon smart-meter sensor platform: the fifteen
 * sensor resources (the keys of SENSOR_TYPES) with their display data, the
 * five meter roles that discovery assigns by device type, and for every
 * channel the record field it reads, whether the value is divided by 1000,
 * and, for the channels that bypass discovery, the well-known device keys
 * probed in priority order.
 */
module Channels {
  import opened Wrappers

  /** A configurable sensor resource. */
  datatype Channel =
    | GasUsed | GasUsedCnt
    | ElecUsageFlowPulse | ElecUsageCntPulse
    | ElecUsageFlowLow | ElecUsageCntLow
    | ElecUsageFlowHigh | ElecUsageCntHigh
    | ElecProdFlowLow | ElecProdCntLow
    | ElecProdFlowHigh | ElecProdCntHigh
    | ElecSolar | ElecSolarCnt
    | Heat

  /** The resource name used in the configuration and as key of SENSOR_TYPES. */
  function Name(c: Channel): string
  {
    match c
    case GasUsed => "gasused"
    case GasUsedCnt => "gasusedcnt"
    case ElecUsageFlowPulse => "elecusageflowpulse"
    case ElecUsageCntPulse => "elecusagecntpulse"
    case ElecUsageFlowLow => "elecusageflowlow"
    case ElecUsageCntLow => "elecusagecntlow"
    case ElecUsageFlowHigh => "elecusageflowhigh"
    case ElecUsageCntHigh => "elecusagecnthigh"
    case ElecProdFlowLow => "elecprodflowlow"
    case ElecProdCntLow => "elecprodcntlow"
    case ElecProdFlowHigh => "elecprodflowhigh"
    case ElecProdCntHigh => "elecprodcnthigh"
    case ElecSolar => "elecsolar"
    case ElecSolarCnt => "elecsolarcnt"
    case Heat => "heat"
  }

  /** One entry of SENSOR_TYPES: display title, unit of measurement, icon. */
  datatype SensorType = SensorType(title: string, unit: string, icon: string)

  const SensorPrefix: string := "Toon "

  /** SENSOR_TYPES, indexed by channel. */
  function Info(c: Channel): SensorType
  {
    match c
    case GasUsed => SensorType("Gas Used Last Hour", "m3", "mdi:fire")
    case GasUsedCnt => SensorType("Gas Used Cnt", "m3", "mdi:fire")
    case ElecUsageFlowPulse => SensorType("Power Use", "Watt", "mdi:flash")
    case ElecUsageFlowLow => SensorType("P1 Power Use Low", "Watt", "mdi:flash")
    case ElecUsageFlowHigh => SensorType("P1 Power Use High", "Watt", "mdi:flash")
    case ElecProdFlowLow => SensorType("P1 Power Prod Low", "Watt", "mdi:flash")
    case ElecProdFlowHigh => SensorType("P1 Power Prod High", "Watt", "mdi:flash")
    case ElecUsageCntPulse => SensorType("Power Use Cnt", "kWh", "mdi:flash")
    case ElecUsageCntLow => SensorType("P1 Power Use Cnt Low", "kWh", "mdi:flash")
    case ElecUsageCntHigh => SensorType("P1 Power Use Cnt High", "kWh", "mdi:flash")
    case ElecProdCntLow => SensorType("P1 Power Prod Cnt Low", "kWh", "mdi:flash")
    case ElecProdCntHigh => SensorType("P1 Power Prod Cnt High", "kWh", "mdi:flash")
    case ElecSolar => SensorType("P1 Power Solar", "Watt", "mdi:weather-sunny")
    case ElecSolarCnt => SensorType("P1 Power Solar Cnt", "kWh", "mdi:weather-sunny")
    case Heat => SensorType("P1 Heat", "", "mdi:fire")
  }

  /** The entity name shown for a resource: the prefix followed by its label. */
  function DisplayName(c: Channel): (n: string)
    ensures |n| > |SensorPrefix| && n[..|SensorPrefix|] == SensorPrefix
    ensures n[|SensorPrefix|..] == Info(c).title
  {
    SensorPrefix + Info(c).title
  }

  /** The fifteen titles are distinct, so no two resources share an entity name. */
  lemma DisplayNameInjective(a: Channel, b: Channel)
    ensures DisplayName(a) == DisplayName(b) ==> a == b
  {
    var na, nb := DisplayName(a), DisplayName(b);
    if na == nb {
      assert Info(a).title == na[|SensorPrefix|..] == nb[|SensorPrefix|..] == Info(b).title;
    }
  }

  /**
   * Distinct channels have distinct resource names, so a table keyed by
   * channel stands for one keyed by the resource name.
   */
  lemma NameInjective(a: Channel, b: Channel)
    ensures Name(a) == Name(b) ==> a == b
  {
  }

  /** The meter roles that discovery recognises by device type. */
  datatype Role = Gas | DeliveredLow | DeliveredHigh | ReceivedLow | ReceivedHigh

  /** The device `type` tags that identify each role. */
  function RoleTypes(r: Role): seq<string>
  {
    match r
    case Gas => ["gas", "HAE_METER_v2_1", "HAE_METER_v3_1"]
    case DeliveredLow => ["elec_delivered_lt", "HAE_METER_v2_5", "HAE_METER_v3_6", "HAE_METER_v3_5"]
    case DeliveredHigh => ["elec_delivered_nt", "HAE_METER_v2_3", "HAE_METER_v3_4"]
    case ReceivedLow => ["elec_received_lt", "HAE_METER_v2_6", "HAE_METER_v3_7"]
    case ReceivedHigh => ["elec_received_nt", "HAE_METER_v2_4", "HAE_METER_v3_5"]
  }

  /** The table-driven role of a channel, if discovery assigns it. */
  function RoleOf(c: Channel): Option<Role>
  {
    match c
    case GasUsed | GasUsedCnt => Some(Gas)
    case ElecUsageFlowLow | ElecUsageCntLow => Some(DeliveredLow)
    case ElecUsageFlowHigh | ElecUsageCntHigh => Some(DeliveredHigh)
    case ElecProdFlowLow | ElecProdCntLow => Some(ReceivedLow)
    case ElecProdFlowHigh | ElecProdCntHigh => Some(ReceivedHigh)
    case _ => None
  }

  /** The instantaneous channel of a role. */
  function FlowOf(r: Role): (c: Channel)
    ensures RoleOf(c) == Some(r)
  {
    match r
    case Gas => GasUsed
    case DeliveredLow => ElecUsageFlowLow
    case DeliveredHigh => ElecUsageFlowHigh
    case ReceivedLow => ElecProdFlowLow
    case ReceivedHigh => ElecProdFlowHigh
  }

  /** The cumulative channel of a role. */
  function CounterOf(r: Role): (c: Channel)
    ensures RoleOf(c) == Some(r) && c != FlowOf(r) && Scaled(c)
  {
    match r
    case Gas => GasUsedCnt
    case DeliveredLow => ElecUsageCntLow
    case DeliveredHigh => ElecUsageCntHigh
    case ReceivedLow => ElecProdCntLow
    case ReceivedHigh => ElecProdCntHigh
  }

  /**
   * The well-known device keys a channel without a role probes, first
   * priority first; empty for the table-driven channels.
   */
  function Candidates(c: Channel): seq<string>
  {
    match c
    case ElecUsageFlowPulse | ElecUsageCntPulse => ["dev_3.2", "dev_2.2", "dev_4.2"]
    case ElecSolar | ElecSolarCnt => ["dev_2.3", "dev_4.3"]
    case Heat => ["dev_2.8", "dev_4.8"]
    case _ => []
  }

  /** The record field a channel reads. */
  function Field(c: Channel): string
  {
    match c
    case GasUsed => "CurrentGasFlow"
    case GasUsedCnt => "CurrentGasQuantity"
    case ElecUsageCntPulse | ElecUsageCntLow | ElecUsageCntHigh
       | ElecProdCntLow | ElecProdCntHigh | ElecSolarCnt => "CurrentElectricityQuantity"
    case Heat => "CurrentHeatQuantity"
    case _ => "CurrentElectricityFlow"
  }

  /** Whether a channel divides the value it reads by 1000. */
  predicate Scaled(c: Channel)
  {
    !(c in {ElecUsageFlowPulse, ElecUsageFlowLow, ElecUsageFlowHigh,
            ElecProdFlowLow, ElecProdFlowHigh, ElecSolar})
  }

  /** The value a channel stores for a raw field value. */
  function Convert(c: Channel, raw: real): (v: real)
    ensures Scaled(c) ==> v * 1000.0 == raw
    ensures !Scaled(c) ==> v == raw
  {
    if Scaled(c) then raw / 1000.0 else raw
  }

  /** A channel is resolved either through the discovery table or through well-known keys, never both. */
  lemma TableOrCandidates(c: Channel)
    ensures RoleOf(c).Some? <==> Candidates(c) == []
  {
  }

  /** Every role owns exactly its flow and its counter channel. */
  lemma RoleChannels(c: Channel, r: Role)
    ensures RoleOf(c) == Some(r) <==> (c == FlowOf(r) || c == CounterOf(r))
  {
  }

  /**
   * The division by 1000 is exactly what separates the channels that read a
   * quantity or the gas flow from those that read the electricity flow, and
   * exactly the channels not displayed in Watt.
   */
  lemma ScalingRule(c: Channel)
    ensures Scaled(c) <==> Field(c) != "CurrentElectricityFlow"
    ensures Scaled(c) <==> Info(c).unit != "Watt"
  {
  }
}
