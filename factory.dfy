/**
 * The factory pattern: `createVehicle` picks defaults by `vehicleType` and
 * spreads the caller's options over them. Objects are maps from property
 * names to values.
 */
module Factory {
  import opened Wrappers

  /** The property values the vehicles carry. */
  datatype Val = Str(s: string) | Int(i: int)

  /** An object literal: its own properties and their values. */
  type Record = map<string, Val>

  /** The defaults of a car: four doors and silver. */
  const CarDefaults: Record := map["doors" := Int(4), "color" := Str("silver")]

  /** The defaults of a truck: two doors and black. */
  const TruckDefaults: Record := map["doors" := Int(2), "color" := Str("black")]

  /** `createVehicle(options)`: for a car or a truck, the defaults of that kind
      with every option laid over them, later properties winning as in
      `{...defaults, ...options}`; for any other or missing `vehicleType`,
      `undefined`. */
  function CreateVehicle(options: Record): (r: Option<Record>)
    ensures r.Some? <==> "vehicleType" in options && options["vehicleType"] in {Str("car"), Str("truck")}
    ensures r.Some? ==> r.value.Keys == options.Keys + {"doors", "color"}
    ensures r.Some? ==> forall k :: k in options ==> r.value[k] == options[k]
    ensures r.Some? && options["vehicleType"] == Str("car") ==>
              forall k :: k in CarDefaults && k !in options ==> r.value[k] == CarDefaults[k]
    ensures r.Some? && options["vehicleType"] == Str("truck") ==>
              forall k :: k in TruckDefaults && k !in options ==> r.value[k] == TruckDefaults[k]
  {
    if "vehicleType" in options && options["vehicleType"] == Str("car") then
      Some(CarDefaults + options)
    else if "vehicleType" in options && options["vehicleType"] == Str("truck") then
      Some(TruckDefaults + options)
    else
      None
  }

  /** A car or truck asked for with no `doors` or `color` gets the defaults of
      its kind. */
  lemma DefaultsApply(options: Record)
    requires "vehicleType" in options && "doors" !in options && "color" !in options
    ensures options["vehicleType"] == Str("car") ==>
              CreateVehicle(options) == Some(options["doors" := Int(4)]["color" := Str("silver")])
    ensures options["vehicleType"] == Str("truck") ==>
              CreateVehicle(options) == Some(options["doors" := Int(2)]["color" := Str("black")])
  {
    var kind := options["vehicleType"];
    if kind == Str("car") || kind == Str("truck") {
      var defaults := if kind == Str("car") then CarDefaults else TruckDefaults;
      var expected := options["doors" := defaults["doors"]]["color" := defaults["color"]];
      assert (defaults + options).Keys == expected.Keys;
      assert forall k :: k in expected ==> (defaults + options)[k] == expected[k];
      assert defaults + options == expected;
    }
  }

  /** The demo: a car asked for in pink is pink, has four doors and stays a
      car. */
  lemma PinkCar()
    ensures CreateVehicle(map["vehicleType" := Str("car"), "color" := Str("pink")])
            == Some(map["doors" := Int(4), "color" := Str("pink"), "vehicleType" := Str("car")])
  {
    var options := map["vehicleType" := Str("car"), "color" := Str("pink")];
    var expected := map["doors" := Int(4), "color" := Str("pink"), "vehicleType" := Str("car")];
    assert (CarDefaults + options).Keys == expected.Keys;
    assert CarDefaults + options == expected;
  }
}
