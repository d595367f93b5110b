/** The scan data the channel graph reads: one access point's signal, the detail
    record that carries it under a device identity, and the band it belongs to. */
module Model {

  /** A measured signal, as reported by one scan: its centre frequency, the
      frequencies where its channel width starts and ends (MHz) and its level (dBm). */
  datatype WiFiSignal = WiFiSignal(frequency: int, frequencyStart: int, frequencyEnd: int, level: int)

  /** One observed access point. `key` stands for the detail's identity under its
      natural ordering (two details with equal keys are the same device); the
      ordering itself is not part of this model. */
  datatype WiFiDetail<K> = WiFiDetail(key: K, signal: WiFiSignal)

  /** The two bands a channel graph can show. */
  datatype WiFiBand = GHZ_2 | GHZ_5

  /** The part of a band's channel table the graph reads: the frequencies of its
      first and last channels, the half-width of a channel and the margin kept
      on either side of the band. */
  datatype WiFiChannels = WiFiChannels(firstFrequency: int, lastFrequency: int, frequencySpread: int, frequencyOffset: int)
}
