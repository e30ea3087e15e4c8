/** updateWithDefaultValues: merging a driver's own configuration over the
    baseline of DefaultPolicy. */
module ConfigMerger {
  import opened Wrappers
  import opened Php
  import opened DefaultPolicy

  /** The driver's `attributes` can be fed to array_merge: either it is not
      set, or it is a list, or it is the empty array. */
  predicate AttributesMergeable(driver: Config)
  {
    !IsSet(driver, "attributes") || driver["attributes"].List? || driver["attributes"] == Assoc(map[])
  }

  /** The rules a driver adds to the defaults: its `attributes` list, or
      nothing when it does not set one or sets the empty array. */
  function OwnRules(driver: Config): seq<Value>
    requires AttributesMergeable(driver)
  {
    if IsSet(driver, "attributes") && driver["attributes"].List? then driver["attributes"].items else []
  }

  /** The merged root configuration for `driver`.
      - Without a `driver` entry the result is the empty configuration.
      - `attributes` is the default rules followed by the driver's own.
      - `driver` is qualified with the driver namespace.
      - Every other key takes the driver's value when it has one, the
        default value otherwise. */
  function UpdateWithDefaultValues(driver: Config): (r: Result<Config, Fault>)
    ensures !IsSet(driver, "driver") ==> r == Ok(map[])
    ensures IsSet(driver, "driver") ==>
      (r.Ok? <==> AttributesMergeable(driver) && !driver["driver"].ConnectorRef?)
    ensures IsSet(driver, "driver") && !AttributesMergeable(driver) ==> r == Err(ArrayMergeTypeError)
    ensures IsSet(driver, "driver") && AttributesMergeable(driver) && driver["driver"].ConnectorRef? ==>
      r == Err(ObjectToStringError)
    ensures IsSet(driver, "driver") && r.Ok? ==>
      && r.value.Keys == DefaultDriverSettings().Keys + driver.Keys
      && (forall k :: k in r.value && k != "driver" && k != "attributes" ==>
            r.value[k] == if k in driver then driver[k] else DefaultDriverSettings()[k])
      && r.value["attributes"] == List(DefaultRules() + OwnRules(driver))
      && r.value["driver"] == Str(DriverNamespace + StringOf(driver["driver"]).value)
    ensures IsSet(driver, "driver") && r.Ok? && driver["driver"].Str? ==>
      r.value["driver"] == Str(DriverClass(driver["driver"].s))
  {
    if |driver| == 0 || !IsSet(driver, "driver") then
      Ok(map[])
    else
      var defaults := DefaultDriverSettings();
      var defaultRules := defaults["attributes"].items;
      var attributes :=
        if IsSet(driver, "attributes") then
          (match driver["attributes"]
           case List(items) => Ok(defaultRules + items)
           case Assoc(entries) => if entries == map[] then Ok(defaultRules) else Err(ArrayMergeTypeError)
           case _ => Err(ArrayMergeTypeError))
        else
          Ok(defaultRules);
      match attributes
      case Err(e) => Err(e)
      case Ok(rules) =>
        match StringOf(driver["driver"])
        case None => Err(ObjectToStringError)
        case Some(name) =>
          var updated := defaults + driver;
          Ok(updated["driver" := Str(DriverNamespace + name)]["attributes" := List(rules)])
  }

  /** A driver that sets no `attributes`, or sets the empty array, gets
      exactly the five default rules; one that sets `n` rules gets `5 + n`, defaults first. */
  lemma MergedAttributes(driver: Config)
    requires IsSet(driver, "driver") && UpdateWithDefaultValues(driver).Ok?
    ensures var rules := UpdateWithDefaultValues(driver).value["attributes"].items;
      && |rules| == 5 + |OwnRules(driver)|
      && rules[..5] == DefaultRules()
      && rules[5..] == OwnRules(driver)
      && (!IsSet(driver, "attributes") ==> rules == DefaultRules())
      && ("attributes" in driver && driver["attributes"] == Assoc(map[]) ==> rules == DefaultRules())
  {
    var rules := UpdateWithDefaultValues(driver).value["attributes"].items;
    assert rules == DefaultRules() + OwnRules(driver);
  }
}
