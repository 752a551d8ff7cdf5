/**
 * The device profile table (custom_components/mypv/const.py): the sensor
 * description record `S` with its defaults, the sensor table keyed by the
 * field identifier the device uses in its JSON, the switchable setup fields,
 * the product-name table and the polling interval.
 */
module Profiles {

  /** Polling interval of the coordinator, in seconds. */
  const MinTimeBetweenUpdatesSeconds: nat := 10

  // Unit strings of the home-automation platform that the table refers to.
  const Watt := "W"
  const Celsius := "°C"
  const Days := "d"
  const Volt := "V"
  const Ampere := "A"
  const Hertz := "Hz"
  const Percentage := "%"

  /**
   * Sensor description: long name, unit, icon, the space-separated models it
   * applies to, and the section of the device's JSON it is read from.
   */
  datatype S = S(nameLong: string, unit: string := "", icon: string := "",
                 device: string := "", source: string := "data")

  /** Product name as reported by the device, mapped to the short model name. */
  const Devices: map<string, string> := map[
    "AC ELWA-E" := "elwa",
    "AC-THOR" := "acthor",
    "AC-THOR 9s" := "actor9s",
    "AC ELWA 2" := "elwa2",
    "dc_elwa" := "dc_elwa",
    "Wi-Fi Meter" := "meter",
    "Solthor" := "solthor",
    "heathorIoT 9" := "heathorIot9",
    "heathorIoT 35" := "heathorIot35",
    "AC-THOR32" := "acthor32",
    "AC-THOR32 9s" := "acthor329s"
  ]

  /** The switchable setup fields, in the order the switches are created. */
  const Switches: seq<string> := ["devmode", "bstmode", "legmode", "cloudmode"]

  // The sensor table, in source order, in blocks of related fields.

  /** Versions, status, power and temperature readings (const.py lines 61-191). */
  const StatusSensors: map<string, S> := map[
    "device" := S("Device", device := "elwa"),
    "acthor9s" := S("Acthor 9s"),
    "fwversion" := S("Firmware Version", icon := "mdi:numeric", device := "elwa"),
    "psversion" := S("Power Supply Version", icon := "mdi:numeric"),
    "p9sversion" := S("Power Supply Version Acthor 9", icon := "mdi:numeric"),
    "screen_mode_flag" := S("Screen Mode"),
    "status" := S("Status ID", device := "elwa acthor acthor9s acthor32 acthor329s elwa2 solthor heathorIot9 heathorIot35"),
    "power" := S("Aktueller Verbrauch", Watt, "mdi:lightning-bolt", device := "elwa solthor"),
    "power_act" := S("Power AC-Thor", Watt, "mdi:lightning-bolt", device := "acthor"),
    "power_ac9" := S("Power Acthor 9", Watt, "mdi:lightning-bolt", device := "acthor9s"),
    "power_elwa2" := S("Power ELWA 2", Watt, "mdi:lightning-bolt", device := "elwa2"),
    "boostpower" := S("Warmwassersicherstellung", Watt, "mdi:thermometer-lines", device := "elwa dc_elwa"),
    "power_solar" := S("Solaranteil", Watt, "mdi:solar-power-variant", device := "acthor acthor9s acthor32 acthor329s elwa2 solthor"),
    "power_grid" := S("Netzanteil", Watt, "mdi:solar-power-variant", device := "acthor acthor9s acthor32 acthor329s elwa2 solthor heathorIot9 heathorIot35"),
    "power_L1" := S("Leistung L1", Watt, device := "heathorIot9 heathorIot35"),
    "power_L2" := S("Leistung L2", Watt, device := "heathorIot9"),
    "power_L3" := S("Leistung L3", Watt, device := "heathorIot9"),
    "power_solar_act" := S("Power from solar", Watt, "mdi:solar-power-variant"),
    "power_grid_act" := S("Power from grid", Watt, "mdi:transmission-tower-export"),
    "power_solar_ac9" := S("Power from solar Acthor 9", Watt, "mdi:solar-power-variant"),
    "power_grid_ac9" := S("Power from grid Acthor 9", Watt, "mdi:transmission-tower-export"),
    "power1_solar" := S("power1_solar", Watt, "mdi:solar-power-variant", device := "acthor acthor9s acthor32 acthor329s elwa2"),
    "power1_grid" := S("power1_grid", Watt, "mdi:transmission-tower-export", device := "acthor acthor9s acthor32 acthor329s elwa2"),
    "power2_solar" := S("power2_solar", Watt, "mdi:solar-power-variant", device := "acthor acthor9s acthor32 acthor329s elwa2"),
    "power2_grid" := S("power2_grid", Watt, "mdi:transmission-tower-export", device := "acthor acthor9s acthor32 acthor329s elwa2"),
    "power3_solar" := S("power3_solar", Watt, "mdi:solar-power-variant", device := "acthor9s"),
    "power3_grid" := S("power3_grid", Watt, "mdi:transmission-tower-export", device := "acthor9s"),
    "load_state" := S("load_state", device := "acthor acthor9s acthor32 acthor329s"),
    "load_nom" := S("load_nom", Watt, device := "acthor acthor9s acthor32 acthor329"),
    "rel1_out" := S("rel1_out", icon := "mdi:electric-switch", device := "acthor acthor9s acthor32 acthor329s elwa2"),
    "rel_selv" := S("SELV Relais Status", device := "elwa2 heathorIot35 heathorIot9"),
    "ww1target" := S("Zieltempertaur", Celsius, "mdi:thermometer-auto", device := "elwa"),
    "temp1" := S("Wassertemperatur", Celsius, "mdi:thermometer-water", device := "acthor acthor9s acthor32 acthor329s elwa elwa2 dc_elwa solthor heathorIot35 heathorIot9"),
    "temp2" := S("Temperatur 2", Celsius, "mdi:thermometer", device := "cthor acthor9s acthor32 acthor329s elwa2 solthor heathorIot35 heathorIot9"),
    "temp3" := S("Temperatur 3", Celsius, "mdi:thermometer", device := "acthor acthor9s acthor32 acthor329s solthor"),
    "temp4" := S("Temperatur 4", Celsius, "mdi:thermometer", device := "acthor acthor9s acthor32 acthor329s")
  ]

  /** Boost, clock and control flags, and the WiFi meters (const.py lines 192-244). */
  const ControlSensors: map<string, S> := map[
    "boostactive" := S("Boost aktiv", icon := "mdi:thermometer-chevron-up", device := "acthor acthor9s acthor32 acthor329s elwa elwa2 dc_elwa solthor heathorIot35 heathorIot9"),
    "legboostnext" := S("Nächster Legionellen Boost", Days, "mdi:bacteria", device := "elwa acthor acthor9s acthor32 acthor329s elwa2 heathorIot35 heathorIot9"),
    "date" := S("Date", icon := "mdi:calendar-today"),
    "loctime" := S("Lokale Uhrzeit", icon := "mdi:home-clock", device := "elwa"),
    "unixtime" := S("Unix time", icon := "mdi:web-clock", device := "elwa"),
    "wp_flag" := S("wp_flag"),
    "wp_time1_ctr" := S("wp_time1_ctr"),
    "wp_time2_ctr" := S("wp_time2_ctr"),
    "wp_time3_ctr" := S("wp_time3_ctr"),
    "pump_pwm" := S("Pump PWM", icon := "mdi:pump", device := "acthor acthor9s acthor32 acthor329s"),
    "schicht_flag" := S("Schicht"),
    "act_night_flag" := S("Night flag"),
    "ctrlstate" := S("Status Ansteuerung", device := "elwa acthor acthor9s acthor32 acthor329s elwa2"),
    "blockactive" := S("Block active", device := "acthor acthor9s acthor32 acthor329s elwa elwa2 dc_elwa"),
    "error_state" := S("Error state", icon := "mdi:alert-circle"),
    "meter1_id" := S("my-PV Meter 1 ID", icon := "mdi:identifier", device := "elwa"),
    "meter1_ip" := S("my-PV Meter 1 IP", icon := "mdi:ip-network", device := "elwa"),
    "meter2_id" := S("my-PV Meter 2 ID", icon := "mdi:identifier", device := "elwa"),
    "meter2_ip" := S("my-PV Meter 2 IP", icon := "mdi:ip-network", device := "elwa"),
    "meter3_id" := S("my-PV Meter 3 ID", icon := "mdi:identifier", device := "elwa"),
    "meter3_ip" := S("my-PV Meter 3 IP", icon := "mdi:ip-network", device := "elwa"),
    "meter4_id" := S("my-PV Meter 4 ID", icon := "mdi:identifier", device := "elwa"),
    "meter4_ip" := S("my-PV Meter 4 IP", icon := "mdi:ip-network", device := "elwa"),
    "meter5_id" := S("my-PV Meter 5 ID", icon := "mdi:identifier", device := "elwa"),
    "meter5_ip" := S("my-PV Meter 5 IP", icon := "mdi:ip-network", device := "elwa"),
    "meter6_id" := S("my-PV Meter 6 ID", icon := "mdi:identifier", device := "elwa"),
    "meter6_ip" := S("my-PV Meter 6 IP", icon := "mdi:ip-network", device := "elwa"),
    "meter_ss" := S("WiFi Meter Signalstärke", Percentage, "mdi:wifi", device := "elwa elwa_min00205 acthor acthor_min00208 acthor9s acthor9s_min00208 elwa2"),
    "meter_ssid" := S("WiFi Meter SSID", icon := "mdi:wifi-marker", device := "elwa elwa_min00205 acthor acthor_min00208 acthor9s acthor9s_min00208 elwa2")
  ]

  /** Readings of the energy-manager meters and the e-car (const.py lines 245-300). */
  const EnergyMeterSensors: map<string, S> := map[
    "surplus" := S("Meter + Batterieladeleistung", Watt, "mdi:lightning-bolt", device := "elwa"),
    "m0sum" := S("Hausanschluss", Watt, "mdi:transmission-tower", device := "elwa"),
    "m0l1" := S("Hausanschluss L1", Watt, "mdi:transmission-tower", device := "elwa"),
    "m0l2" := S("Hausanschluss L2", Watt, "mdi:transmission-tower", device := "elwa"),
    "m0l3" := S("Hausanschluss L3", Watt, "mdi:transmission-tower", device := "elwa"),
    "m0bat" := S("Batteriespeicher", Watt, "mdi:transmission-tower", device := "elwa"),
    "m1sum" := S("PV Leistung", Watt, "mdi:solar-power", device := "elwa"),
    "m1l1" := S("PV Leistung L1", Watt, "mdi:solar-power", device := "elwa"),
    "m1l2" := S("PV Leistung L2", Watt, "mdi:solar-power", device := "elwa"),
    "m1l3" := S("PV Leistung L3", Watt, "mdi:solar-power", device := "elwa"),
    "m1devstate" := S("PV Kommunikationsstatus", icon := "mdi:link", device := "elwa"),
    "m2sum" := S("Batterie Leistung", Watt, "mdi:home-battery", device := "elwa"),
    "m2l1" := S("Batterie Leistung L1", Watt, "mdi:home-battery", device := "elwa"),
    "m2l2" := S("Batterie Leistung L2", Watt, "mdi:home-battery", device := "elwa"),
    "m2l3" := S("Batterie Leistung L3", Watt, "mdi:home-battery", device := "elwa"),
    "m2soc" := S("Batterie SoC", Percentage, "mdi:battery-charging-50", device := "elwa"),
    "m2state" := S("Batterie Status", icon := "mdi:battery-heart-variant", device := "elwa"),
    "m2devstate" := S("Batterie Kommunikationsstatus", icon := "mdi:link"),
    "m3sum" := S("Ladestation Leistung", Watt, "mdi:ev-station", device := "elwa"),
    "m3l1" := S("Ladestation L1", Watt, "mdi:ev-station", device := "elwa"),
    "m3l2" := S("Ladestation L2", Watt, "mdi:ev-station", device := "elwa"),
    "m3l3" := S("Ladestation L2", Watt, "mdi:ev-station", device := "elwa"),
    "m3soc" := S("Ladestation SoC", Percentage, "mdi:battery-charging-50", device := "elwa"),
    "m3devstate" := S("Ladestation Kommunikationsstatus", icon := "mdi:link", device := "elwa"),
    "m4sum" := S("Wärmepumpe Leistung", Watt, "mdi:heat-pump", device := "elwa"),
    "m4l1" := S("Wärmepumpe L1", Watt, "mdi:heat-pump", device := "elwa"),
    "m4l2" := S("Wärmepumpe L2", Watt, "mdi:heat-pump", device := "elwa"),
    "m4l3" := S("Wärmepumpe L3", Watt, "mdi:heat-pump", device := "elwa"),
    "m4devstate" := S("Wärmepumpe Kommunikationsstatus", icon := "mdi:link", device := "elwa"),
    "ecarstate" := S("E-Auto Status", icon := "mdi:car-electric", device := "elwa"),
    "ecarboostctr" := S("ecarboostctr", device := "elwa")
  ]

  /** Secondary controllers, mains voltages and currents, power stage (const.py lines 301-425). */
  const PowerStageSensors: map<string, S> := map[
    "mss2" := S("Sekundärregler 2 Status", device := "acthor acthor9s acthor32 acthor329s elwa2"),
    "mss3" := S("Sekundärregler 3 Status", device := "acthor acthor9s acthor32 acthor329s elwa2"),
    "mss4" := S("Sekundärregler 4 Status", device := "acthor acthor9s acthor32 acthor329s elwa2"),
    "mss5" := S("Sekundärregler 5 Status", device := "acthor acthor9s acthor32 acthor329s elwa2"),
    "mss6" := S("Sekundärregler 6 Status", device := "acthor acthor9s acthor32 acthor329s elwa2"),
    "mss7" := S("Sekundärregler 7 Status", device := "acthor acthor9s acthor32 acthor329s elwa2"),
    "mss8" := S("Sekundärregler 8 Status", device := "acthor acthor9s acthor32 acthor329s elwa2"),
    "mss9" := S("Sekundärregler 9 Status", device := "acthor acthor9s acthor32 acthor329s elwa2"),
    "mss10" := S("Sekundärregler 10 Status", device := "acthor acthor9s acthor32 acthor329s elwa2"),
    "mss11" := S("Sekundärregler 11 Status", device := "acthor acthor9s acthor32 acthor329s elwa2"),
    "tempchip" := S("tempchip", Celsius, "mdi:chip", device := "elwa"),
    "volt_mains" := S("Eingangsspannung Leistungsteil L1", Volt, "mdi:flash-triangle", device := "acthor acthor9s acthor32 acthor329s elwa2 solthor"),
    "curr_mains" := S("Netzstrom L1", Ampere, "mdi:current-ac", device := "acthor acthor9s acthor32 acthor329s solthor"),
    "volt_mains_L1" := S("Eingangsspannung Leistungsteil L1", Volt, "mdi:flash-triangle", device := "acthor acthor9s acthor32 acthor329s elwa2 solthor"),
    "curr_L1" := S("Current L1", Ampere, "mdi:current-ac", device := "heathorIot35 heathorIot9"),
    "volt_mains_L2" := S("Eingangsspannung Leistungsteil L2", Volt, "mdi:flash-triangle", device := "heathorIot9"),
    "volt_L2" := S("Eingangsspannung Leistungsteil L2", Volt, "mdi:flash-triangle", device := "acthor9s"),
    "curr_L2" := S("Current L2", Ampere, "mdi:current-ac", device := "heathorIot9 acthor9s"),
    "volt_mains_L3" := S("Eingangsspannung Leistungsteil L3", Volt, "mdi:flash-triangle", device := "heathorIot9"),
    "volt_L3" := S("Eingangsspannung Leistungsteil L3", Volt, "mdi:flash-triangle", device := "acthor9s"),
    "curr_L3" := S("Current L3", Ampere, "mdi:current-ac", device := "heathorIot9 acthor9s"),
    "volt_out" := S("Ausgangsspannung Leistungsteil", Volt, "mdi:flash-triangle", device := "acthor acthor9s acthor32 acthor329s"),
    "volt_aux" := S("Spannung L2 an AUX-Relais", Volt, "mdi:flash-triangle", device := "elwa2"),
    "freq" := S("Netzfrequenz", Hertz, "mdi:sine-wave", device := "acthor acthor9s acthor32 acthor329s elwa2 solthor heathorIot35 heathorIot9"),
    "temp_ps" := S("Temperatur Leistungsteil", Celsius, "mdi:thermometer", device := "acthor acthor9s acthor32 acthor329s elwa2 solthor heathorIot35 heathorIot9"),
    "fan_speed" := S("Lüfterstufe", icon := "mdi:fan", device := "acthor acthor9s acthor32 acthor329s elwa2"),
    "ps_state" := S("Status Leistungsteil", device := "acthor acthor9s acthor32 acthor329s elwa2"),
    "relay_boost" := S("Relais Boost", device := "solthor"),
    "relay_alarm" := S("Relais Alarm", device := "solthor")
  ]

  /** Network settings, firmware update state and cloud state (const.py lines 426-449). */
  const NetworkSensors: map<string, S> := map[
    "cur_ip" := S("Current IP", icon := "mdi:ip-network", device := "elwa"),
    "cur_sn" := S("Current subnet mask", icon := "mdi:numeric", device := "elwa"),
    "cur_gw" := S("Current gateway", icon := "mdi:router-network", device := "elwa"),
    "cur_dns" := S("Current DNS", icon := "mdi:dns", device := "elwa"),
    "fwversionlatest" := S("latest Firmware version", icon := "mdi:numeric"),
    "psversionlatest" := S("latest Power supply version", icon := "mdi:numeric"),
    "p9sversionlatest" := S("latest Power supply version Acthor 9", icon := "mdi:numeric"),
    "upd_state" := S("Update state", icon := "mdi:update"),
    "upd_files_left" := S("Update files left", icon := "mdi:update"),
    "ps_upd_state" := S("Power supply update state", icon := "mdi:update"),
    "p9s_upd_state" := S("Acthor 9 Power supply update state", icon := "mdi:update"),
    "cloudstate" := S("Cloud Status", icon := "mdi:cloud-check", device := "elwa elwa_min00201 acthor acthor_min00201 acthor9s acthor9s_min00201 elwa2 solthor heathorIot35 heathorIot9"),
    "debug_ip" := S("Debug IP", icon := "mdi:ip-network", device := "elwa elwa_min00201 acthor acthor_min00201 acthor9s acthor9s_min00201 elwa2"),
    "cur_eth_mode" := S("Ethernet-Modus", device := "elwa2 solthor heathorIot35 heathorIot9")
  ]

  /** The setup block: the fields the switches write (const.py lines 451-464). */
  const SetupSensors: map<string, S> := map[
    "devmode" := S("Device State", source := "setup", icon := "mdi:power", device := "elwa"),
    "bstmode" := S("Hot Water Boost Mode", source := "setup", icon := "mdi:thermometer-lines", device := "elwa"),
    "legmode" := S("Legionella Protection", source := "setup", icon := "mdi:bacteria-outline", device := "elwa"),
    "cloudmode" := S("Cloud Mode", source := "setup", device := "elwa")
  ]
  /** Every entry before the setup block. */
  const ReadingSensors: map<string, S> :=
    StatusSensors + ControlSensors + EnergyMeterSensors + PowerStageSensors + NetworkSensors

  /** The whole sensor table, keyed by field identifier. */
  const SensorTypes: map<string, S> := ReadingSensors + SetupSensors

  /** Every description in `m` reads the live "data" section. */
  ghost predicate AllFromData(m: map<string, S>)
  {
    forall k :: k in m ==> m[k].source == "data"
  }

  /** An `S` given only its long name takes the declared defaults. */
  lemma SDefaults(nameLong: string)
    ensures S(nameLong).nameLong == nameLong
    ensures S(nameLong).unit == "" && S(nameLong).icon == "" && S(nameLong).device == ""
    ensures S(nameLong).source == "data"
  {
  }

  lemma StatusSensorsFromData() ensures AllFromData(StatusSensors) {}
  lemma ControlSensorsFromData() ensures AllFromData(ControlSensors) {}
  lemma EnergyMeterSensorsFromData() ensures AllFromData(EnergyMeterSensors) {}
  lemma PowerStageSensorsFromData() ensures AllFromData(PowerStageSensors) {}
  lemma NetworkSensorsFromData() ensures AllFromData(NetworkSensors) {}

  /** A union of maps whose descriptions all read the "data" section has only such descriptions. */
  lemma AllFromDataUnion(a: map<string, S>, b: map<string, S>)
    requires AllFromData(a) && AllFromData(b)
    ensures AllFromData(a + b)
  {
  }

  /** No entry before the setup block names a source: all keep the default. */
  lemma ReadingSensorsFromData()
    ensures AllFromData(ReadingSensors)
  {
    StatusSensorsFromData();
    ControlSensorsFromData();
    AllFromDataUnion(StatusSensors, ControlSensors);
    EnergyMeterSensorsFromData();
    AllFromDataUnion(StatusSensors + ControlSensors, EnergyMeterSensors);
    PowerStageSensorsFromData();
    AllFromDataUnion(StatusSensors + ControlSensors + EnergyMeterSensors, PowerStageSensors);
    NetworkSensorsFromData();
    AllFromDataUnion(StatusSensors + ControlSensors + EnergyMeterSensors + PowerStageSensors, NetworkSensors);
  }

  /** The setup block holds exactly the switch names, each an AC ELWA-E setup field. */
  lemma SetupBlockIsSwitches()
    ensures SetupSensors.Keys == set n | n in Switches
    ensures forall k :: k in SetupSensors ==> SetupSensors[k].source == "setup"
    ensures forall k :: k in SetupSensors ==> SetupSensors[k].device == "elwa"
  {
  }

  /** In `reading + setup`, an entry reads the setup section exactly when it comes from `setup`. */
  lemma SourceOfUnion(reading: map<string, S>, setup: map<string, S>, k: string)
    requires AllFromData(reading)
    requires forall n :: n in setup ==> setup[n].source == "setup"
    requires k in reading + setup
    ensures (reading + setup)[k].source == "setup" <==> k in setup
    ensures (reading + setup)[k].source == "data" <==> k !in setup
  {
  }

  /** An entry of the table reads the setup section exactly when it is in the setup block. */
  lemma SourceOfEntry(k: string)
    requires k in SensorTypes
    ensures SensorTypes[k].source == "setup" <==> k in SetupSensors
    ensures SensorTypes[k].source == "data" <==> k !in SetupSensors
  {
    ReadingSensorsFromData();
    SetupBlockIsSwitches();
    SourceOfUnion(ReadingSensors, SetupSensors, k);
  }

  /** Every built-in switch name is a key of the table, with source "setup" and device "elwa". */
  lemma SwitchesInSensorTypes(n: string)
    requires n in Switches
    ensures n in SensorTypes
    ensures SensorTypes[n].source == "setup" && SensorTypes[n].device == "elwa"
  {
    SetupBlockIsSwitches();
  }

  /** There are exactly four switches and no name is repeated. */
  lemma SwitchesDistinct()
    ensures |Switches| == 4
    ensures forall i, j :: 0 <= i < j < |Switches| ==> Switches[i] != Switches[j]
  {
  }

  /** Distinct product names map to distinct model names. */
  lemma DevicesInjective()
    ensures forall a, b :: a in Devices && b in Devices && a != b ==> Devices[a] != Devices[b]
  {
  }
}
