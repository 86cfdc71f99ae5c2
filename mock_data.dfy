/** The static fixtures the map and the forecast views read: the eight
    simulated sensor stations, the catalogue of environmental parameters and
    the forecast series. They hold no logic; the views' lemmas instantiate
    them. */
module MockData {

  /** A catalogue entry of an environmental parameter. */
  datatype Parameter = Parameter(id: string, name: string, unit: string, category: string)

  /** A simulated sensor station and its reading per parameter id. */
  datatype SensorStation = SensorStation(id: int, name: string, data: map<string, real>)

  /** One dated value of a series. */
  datatype Point = Point(date: string, value: real)

  /** The measured and the forecast series of one parameter. */
  datatype ForecastData = ForecastData(parameter: string, actualData: seq<Point>, forecastData: seq<Point>)

  const SENSOR_STATIONS: seq<SensorStation> := [
    SensorStation(1, "Norte", map["temperature" := 28.5, "humidity" := 65.0, "waterLevel" := 120.0, "salinity" := 35.2, "pH" := 8.1, "dissolvedOxygen" := 6.8, "turbidity" := 5.2, "algaeConcentration" := 12.5]),
    SensorStation(2, "Este", map["temperature" := 29.2, "humidity" := 60.0, "waterLevel" := 115.0, "salinity" := 36.5, "pH" := 7.9, "dissolvedOxygen" := 6.2, "turbidity" := 6.8, "algaeConcentration" := 18.3]),
    SensorStation(3, "Sur", map["temperature" := 30.1, "humidity" := 55.0, "waterLevel" := 90.0, "salinity" := 38.1, "pH" := 7.7, "dissolvedOxygen" := 5.9, "turbidity" := 8.5, "algaeConcentration" := 24.7]),
    SensorStation(4, "Oeste", map["temperature" := 27.8, "humidity" := 70.0, "waterLevel" := 125.0, "salinity" := 34.8, "pH" := 8.3, "dissolvedOxygen" := 7.2, "turbidity" := 4.6, "algaeConcentration" := 9.8]),
    SensorStation(5, "Centro", map["temperature" := 29.5, "humidity" := 62.0, "waterLevel" := 110.0, "salinity" := 37.0, "pH" := 8.0, "dissolvedOxygen" := 6.5, "turbidity" := 6.2, "algaeConcentration" := 15.6]),
    SensorStation(6, "Noreste", map["temperature" := 28.8, "humidity" := 63.0, "waterLevel" := 118.0, "salinity" := 35.8, "pH" := 8.2, "dissolvedOxygen" := 6.7, "turbidity" := 5.5, "algaeConcentration" := 13.2]),
    SensorStation(7, "Sureste", map["temperature" := 30.5, "humidity" := 53.0, "waterLevel" := 85.0, "salinity" := 39.2, "pH" := 7.6, "dissolvedOxygen" := 5.7, "turbidity" := 9.1, "algaeConcentration" := 26.4]),
    SensorStation(8, "Suroeste", map["temperature" := 29.8, "humidity" := 58.0, "waterLevel" := 95.0, "salinity" := 37.5, "pH" := 7.8, "dissolvedOxygen" := 6.0, "turbidity" := 7.5, "algaeConcentration" := 20.1])
  ]

  const ENVIRONMENTAL_PARAMETERS: seq<Parameter> := [
    Parameter("temperature", "Temperatura", "°C", "Clima"),
    Parameter("humidity", "Humedad", "%", "Clima"),
    Parameter("waterLevel", "Nivel de Agua", "cm", "Hidrología"),
    Parameter("salinity", "Salinidad", "PSU", "Agua"),
    Parameter("pH", "pH", "", "Agua"),
    Parameter("dissolvedOxygen", "Oxígeno Disuelto", "mg/L", "Agua"),
    Parameter("turbidity", "Turbidez", "NTU", "Agua"),
    Parameter("algaeConcentration", "Concentración de Algas", "µg/L", "Biología")
  ]

  const FORECAST_DATA: seq<ForecastData> := [
    ForecastData("Temperatura",
      [Point("Ene", 24.5), Point("Feb", 25.2), Point("Mar", 26.5), Point("Abr", 27.8), Point("May", 28.9), Point("Jun", 29.3)],
      [Point("Jul", 30.2), Point("Ago", 31.3), Point("Sep", 29.8), Point("Oct", 28.1), Point("Nov", 26.4), Point("Dic", 25.1)]),
    ForecastData("Nivel de Agua",
      [Point("Ene", 115.0), Point("Feb", 118.0), Point("Mar", 120.0), Point("Abr", 116.0), Point("May", 112.0), Point("Jun", 107.0)],
      [Point("Jul", 98.0), Point("Ago", 90.0), Point("Sep", 95.0), Point("Oct", 105.0), Point("Nov", 110.0), Point("Dic", 113.0)]),
    ForecastData("Salinidad",
      [Point("Ene", 35.0), Point("Feb", 35.2), Point("Mar", 35.5), Point("Abr", 36.0), Point("May", 36.4), Point("Jun", 36.8)],
      [Point("Jul", 37.2), Point("Ago", 37.8), Point("Sep", 37.5), Point("Oct", 37.0), Point("Nov", 36.5), Point("Dic", 35.8)]),
    ForecastData("Concentración de Algas",
      [Point("Ene", 12.5), Point("Feb", 13.2), Point("Mar", 14.8), Point("Abr", 15.9), Point("May", 16.7), Point("Jun", 17.6)],
      [Point("Jul", 19.2), Point("Ago", 22.5), Point("Sep", 20.3), Point("Oct", 18.1), Point("Nov", 15.8), Point("Dic", 13.4)])
  ]
}
