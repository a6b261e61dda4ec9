/**
 * The radio example's broadcast filter: it decides whether a newly discovered station is
 * delivered to a subscriber that asked for stations with (or without) traffic service.
 */
module TrafficServiceBroadcastFilter {

  datatype Country = Australia | Canada | Germany

  datatype RadioStation = RadioStation(name: string, trafficService: bool, country: Country)

  datatype GeoPosition = GeoPosition(latitudeMicroDeg: int, longitudeMicroDeg: int)

  /** The subscriber's filter parameters; hasTrafficService is a string, empty when not set. */
  datatype FilterParameters = FilterParameters(hasTrafficService: string)

  /** Whether the newly discovered station is passed on to the subscriber. */
  function Filter(discoveredStation: RadioStation, geoPosition: GeoPosition,
                  filterParameters: FilterParameters): (r: bool)
    ensures filterParameters.hasTrafficService == "" ==> r
    ensures filterParameters.hasTrafficService == "true" ==> r == discoveredStation.trafficService
    ensures filterParameters.hasTrafficService !in {"", "true"} ==> r == !discoveredStation.trafficService
  {
    if |filterParameters.hasTrafficService| == 0 then
      true
    else
      var hasTrafficService := filterParameters.hasTrafficService == "true";
      discoveredStation.trafficService == hasTrafficService
  }

  /**
   * The decision ignores the geo position and every station field other than trafficService.
   */
  lemma FilterDependsOnlyOnTrafficService(s1: RadioStation, s2: RadioStation,
                                          g1: GeoPosition, g2: GeoPosition, p: FilterParameters)
    requires s1.trafficService == s2.trafficService
    ensures Filter(s1, g1, p) == Filter(s2, g2, p)
  {
  }
}
