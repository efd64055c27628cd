/**
 * The records returned by the elderly-pedestrian accident hotspot service,
 * in the shape the dashboard reads them: `{ totalCount, items: { item: [...] } }`.
 */
module Accidents {

  /** A latitude/longitude pair (`la_crd`, `lo_crd`). */
  datatype LatLng = LatLng(lat: real, lng: real)

  /** One hotspot: `spot_nm`, coordinates, `occrrnc_cnt`, `se_dnv_cnt`, `dth_dnv_cnt`. */
  datatype AccidentRecord = AccidentRecord(
    spotName: string,
    position: LatLng,
    occurrences: int,
    seriousInjuries: int,
    deaths: int)

  /** A parsed response body: `totalCount` and the list `items.item`. */
  datatype AccidentReport = AccidentReport(totalCount: int, items: seq<AccidentRecord>)
}
