/** The elFinder connector: the driver registry, root assembly and the
    access-control callback. */
module Editor {
  import opened Wrappers
  import opened Php
  import opened DefaultPolicy
  import opened ConfigMerger

  /** A driver instance: the name it was registered under, its class, and the
      configuration its getConfiguration() returns. */
  datatype Driver = Driver(name: string, cls: string, config: Config)

  /** The driver classes that can be loaded, each with the configuration its
      instances report. */
  type ClassTable = map<string, Config>

  /** The command hook bound in the options: the connector's manageCommands. */
  datatype Hook = ManageCommands

  /** The options handed to elFinder. */
  datatype Options = Options(bind: map<string, Hook>, sessionCloseEarlier: bool, roots: seq<Config>)

  /** The commands whose completion triggers the hook. */
  const BoundCommands: string := "upload rm mkdir"

  /** setDriver's `new $driverClass()` followed by setName: the instance
      for `name`, or the error PHP raises when its class does not exist. */
  function Instantiate(name: string, classes: ClassTable): (r: Result<Driver, Fault>)
    ensures r.Ok? <==> DriverClass(name) in classes
    ensures r.Ok? ==> r.value.name == name && r.value.cls == DriverClass(name)
    ensures r.Ok? ==> r.value.config == classes[DriverClass(name)]
    ensures r.Err? ==> r.error == ClassNotFound(DriverClass(name))
  {
    var cls := DriverClass(name);
    if cls in classes then Ok(Driver(name, cls, classes[cls])) else Err(ClassNotFound(cls))
  }

  /** The `plugin` entry getRoots attaches to a driver's configuration. */
  function PluginContext(name: string): Value
  {
    Assoc(map["chamilo" := Assoc(map["driverName" := Str(name), "connector" := ConnectorRef])])
  }

  /** The root getRoots builds for one driver: its configuration with
      `plugin` replaced, merged over the defaults. */
  function RootOf(d: Driver): (r: Result<Config, Fault>)
    ensures !IsSet(d.config, "driver") ==> r == Ok(map[])
    ensures IsSet(d.config, "driver") ==>
      (r.Ok? <==> AttributesMergeable(d.config) && !d.config["driver"].ConnectorRef?)
    ensures IsSet(d.config, "driver") && r.Ok? ==>
      && r.value.Keys == DefaultDriverSettings().Keys + d.config.Keys + {"plugin"}
      && r.value["plugin"] == PluginContext(d.name)
      && r.value["attributes"] == List(DefaultRules() + OwnRules(d.config))
    ensures IsSet(d.config, "driver") && r.Ok? && d.config["driver"].Str? ==>
      r.value["driver"] == Str(DriverClass(d.config["driver"].s))
  {
    var c := d.config["plugin" := PluginContext(d.name)];
    assert IsSet(c, "driver") <==> IsSet(d.config, "driver");
    assert AttributesMergeable(c) <==> AttributesMergeable(d.config);
    assert AttributesMergeable(c) ==> OwnRules(c) == OwnRules(d.config);
    UpdateWithDefaultValues(c)
  }

  /** The roots of `ds`, in order; the first failing driver aborts with its error. */
  function RootsOf(ds: seq<Driver>): (r: Result<seq<Config>, Fault>)
    ensures r.Ok? <==> forall i :: 0 <= i < |ds| ==> RootOf(ds[i]).Ok?
    ensures r.Ok? ==> |r.value| == |ds| && forall i :: 0 <= i < |ds| ==> r.value[i] == RootOf(ds[i]).value
  {
    CollectPerElement(RootOf, ds);
    Collect(RootOf, ds)
  }

  /** The access-control callback: for a path whose basename starts with '.',
      `read` and `write` are denied and every other attribute is granted;
      any other path is left to elFinder (`None`). */
  function Access<D, V>(attr: string, path: string, data: D, volume: V): (r: Option<bool>)
    ensures r.Some? <==> |Basename(path)| > 0 && Basename(path)[0] == '.'
    ensures r.Some? ==> (r.value <==> attr != "read" && attr != "write")
  {
    var b := Basename(path);
    if |b| > 0 && b[0] == '.' then Some(!(attr == "read" || attr == "write")) else None
  }

  /** Access decides on the last segment of the path alone, trailing
      slashes included, and never on `data` or `volume`. */
  lemma AccessOnLastSegment<D, V>(attr: string, dir: string, name: string, n: nat, data: D, volume: V)
    requires name != [] && forall i :: 0 <= i < |name| ==> name[i] != '/'
    ensures Access(attr, dir + "/" + name + Slashes(n), data, volume) ==
      if name[0] == '.' then Some(attr != "read" && attr != "write") else None
  {
    BasenameOfChild(dir, name, n);
  }

  /** A dot-file: reading `/a/.secret` is denied and locking it granted. */
  lemma DotFileExample()
    ensures Access("read", "/a/.secret", "", "") == Some(false)
    ensures Access("locked", "/a/.secret", "", "") == Some(true)
  {
    assert "/a" + "/" + ".secret" + Slashes(0) == "/a/.secret";
    BasenameOfChild("/a", ".secret", 0);
  }

  /** An ordinary file: `/a/public` is left undecided. */
  lemma PlainFileExample()
    ensures Access("read", "/a/public", "", "") == None
  {
    assert "/a" + "/" + "public" + Slashes(0) == "/a/public";
    BasenameOfChild("/a", "public", 0);
  }

  /** The connector object. `drivers` is PHP's associative array of driver
      instances keyed by name; `order` is its iteration order (a key keeps its
      place when it is overwritten). */
  class Connector {
    var drivers: map<string, Driver>
    var order: seq<string>
    var driverList: seq<string>

    /** Every driver is stored under its own name, and `order` lists each
        stored name exactly once. */
    ghost predicate Valid()
      reads this
    {
      WellFormed(drivers, order)
    }

    /** A new connector has no drivers and activates the default list. */
    constructor ()
      ensures Valid()
      ensures drivers == map[] && order == []
      ensures driverList == DefaultDriverList()
    {
      drivers := map[];
      order := [];
      driverList := DefaultDriverList();
    }

    function GetDriverList(): (names: seq<string>)
      reads this
      ensures names == driverList
    {
      driverList
    }

    method SetDriverList(list: seq<string>)
      requires Valid()
      modifies this`driverList
      ensures Valid()
      ensures driverList == list
    {
      driverList := list;
    }

    /** Registers `d` under its name; a null driver is ignored. An earlier
        driver of the same name is replaced in place; others are untouched. */
    method AddDriver(d: Option<Driver>)
      requires Valid()
      modifies this`drivers, this`order
      ensures Valid()
      ensures d.None? ==> drivers == old(drivers) && order == old(order)
      ensures d.Some? ==> drivers == old(drivers)[d.value.name := d.value]
      ensures d.Some? ==> order == if d.value.name in old(drivers) then old(order) else old(order) + [d.value.name]
    {
      if d.Some? {
        var name := d.value.name;
        if name !in drivers {
          order := order + [name];
        }
        drivers := drivers[name := d.value];
      }
    }

    /** The registered drivers in iteration order: each exactly once. */
    function GetDrivers(): (ds: seq<Driver>)
      reads this
      requires Valid()
      ensures |ds| == |drivers| == |order|
      ensures forall i :: 0 <= i < |ds| ==> ds[i].name == order[i]
      ensures forall i :: 0 <= i < |ds| ==> ds[i].name in drivers && drivers[ds[i].name] == ds[i]
      ensures forall i, j :: 0 <= i < j < |ds| ==> ds[i].name != ds[j].name
      ensures forall n :: n in drivers ==> exists i :: 0 <= i < |ds| && ds[i].name == n
    {
      var names, table := order, drivers;
      var ds := seq(|names|, i requires 0 <= i < |names| && names[i] in table => table[names[i]]);
      assert forall i :: 0 <= i < |ds| ==> ds[i].name == order[i];
      ds
    }

    /** The driver registered as `name`, or null. */
    function GetDriver(name: string): (d: Option<Driver>)
      reads this
      requires Valid()
      ensures d.Some? <==> name in drivers
      ensures d.Some? ==> d.value.name == name && d.value == drivers[name]
    {
      if name in drivers then Some(drivers[name]) else None
    }

    /** Instantiates the driver `name` and registers it; when its class
        does not exist nothing changes and the error is returned. */
    method SetDriver(name: string, classes: ClassTable) returns (fault: Option<Fault>)
      requires Valid()
      modifies this`drivers, this`order
      ensures Valid()
      ensures fault.None? <==> DriverClass(name) in classes
      ensures fault.Some? ==> fault.value == ClassNotFound(DriverClass(name))
      ensures fault.Some? ==> drivers == old(drivers) && order == old(order)
      ensures fault.None? ==> drivers == old(drivers)[name := Instantiate(name, classes).value]
      ensures fault.None? ==> order == if name in old(drivers) then old(order) else old(order) + [name]
      ensures Registration(drivers, order, fault) == SetDriverStep(old(drivers), old(order), name, classes)
    {
      var d := Instantiate(name, classes);
      if d.Err? {
        return Some(d.error);
      }
      AddDriver(Some(d.value));
      fault := None;
    }

    /** Registers every driver of the list, in order. The first name whose
        class does not exist stops the loop with that error; the drivers
        before it stay registered. The RegisterAll lemmas state what this
        guarantees. */
    method SetDrivers(classes: ClassTable) returns (fault: Option<Fault>)
      requires Valid()
      modifies this`drivers, this`order
      ensures Valid()
      ensures Registration(drivers, order, fault) == RegisterAll(old(drivers), old(order), driverList, classes)
    {
      var i := 0;
      while i < |driverList|
        invariant 0 <= i <= |driverList|
        invariant Valid()
        invariant Registration(drivers, order, None) == RegisterAll(old(drivers), old(order), driverList[..i], classes)
      {
        var name := driverList[i];
        RegisterAllNext(old(drivers), old(order), driverList, i, classes);
        fault := SetDriver(name, classes);
        if fault.Some? {
          RegisterAllFaultSticks(old(drivers), old(order), driverList, i + 1, classes);
          return;
        }
        i := i + 1;
      }
      assert driverList[..i] == driverList;
      fault := None;
    }

    /** getRoots(true): one merged root per registered driver, in the
        registry's order, each tagged with its driver's name. */
    method GetRoots() returns (roots: Result<seq<Config>, Fault>)
      requires Valid()
      ensures roots == RootsOf(GetDrivers())
    {
      var ds := GetDrivers();
      var acc: seq<Config> := [];
      var i := 0;
      while i < |ds|
        invariant 0 <= i <= |ds|
        invariant Collect(RootOf, ds[..i]) == Ok(acc)
      {
        var root := RootOf(ds[i]);
        CollectStep(RootOf, ds, i);
        if root.Err? {
          return Err(root.error);
        }
        acc := acc + [root.value];
        i := i + 1;
      }
      assert ds[..i] == ds;
      roots := Ok(acc);
    }

    /** getOperations: registers the drivers of the list, then hands
        elFinder the command hook, `sessionCloseEarlier = false` and the
        roots. */
    method GetOperations(classes: ClassTable) returns (opts: Result<Options, Fault>)
      requires Valid()
      modifies this`drivers, this`order
      ensures Valid()
      ensures var r := RegisterAll(old(drivers), old(order), driverList, classes);
        && drivers == r.table && order == r.order
        && (r.fault.Some? ==> opts == Err(r.fault.value))
        && (r.fault.None? && opts.Err? ==> RootsOf(GetDrivers()) == Err(opts.error))
      ensures opts.Ok? ==> forall n :: n in driverList ==> Registered(drivers, n, classes)
      ensures opts.Ok? ==> opts.value.bind == map[BoundCommands := ManageCommands]
      ensures opts.Ok? ==> !opts.value.sessionCloseEarlier
      ensures opts.Ok? ==> Ok(opts.value.roots) == RootsOf(GetDrivers())
      ensures opts.Err? ==> (exists n :: n in driverList && DriverClass(n) !in classes) || RootsOf(GetDrivers()).Err?
    {
      var fault := SetDrivers(classes);
      RegisterAllRegisters(old(drivers), old(order), driverList, classes);
      RegisterAllFault(old(drivers), old(order), driverList, classes);
      if fault.Some? {
        return Err(fault.value);
      }
      var roots := GetRoots();
      if roots.Err? {
        return Err(roots.error);
      }
      opts := Ok(Options(map[BoundCommands := ManageCommands], false, roots.value));
    }
  }

  /** `table` holds, under `name`, the instance setDriver creates for it. */
  ghost predicate Registered(table: map<string, Driver>, name: string, classes: ClassTable)
  {
    DriverClass(name) in classes && name in table && table[name] == Instantiate(name, classes).value
  }

  /** A driver table with its iteration order: every driver is stored under
      its own name, and the order lists each stored name exactly once. */
  ghost predicate WellFormed(table: map<string, Driver>, order: seq<string>)
  {
    && (forall n :: n in table ==> table[n].name == n)
    && (forall n :: n in table <==> n in order)
    && (forall i, j :: 0 <= i < j < |order| ==> order[i] != order[j])
    && |order| == |table|
  }

  /** addDriver keeps a table well formed: the driver goes under its own
      name, and a new name is appended to the order. */
  lemma PutKeepsWellFormed(table: map<string, Driver>, order: seq<string>, d: Driver)
    requires WellFormed(table, order)
    ensures WellFormed(table[d.name := d], if d.name in table then order else order + [d.name])
  {
    if d.name !in table {
      var order' := order + [d.name];
      assert forall n :: n in order' <==> n in order || n == d.name;
      assert forall i :: 0 <= i < |order| ==> order[i] != d.name;
    }
  }

  /** setDriver on a table value: the named driver is instantiated and
      added under its name, or the table is kept and the error returned. */
  function SetDriverStep(table: map<string, Driver>, order: seq<string>, name: string, classes: ClassTable): (r: Registration)
    ensures r.fault.None? <==> DriverClass(name) in classes
    ensures r.fault.Some? ==> r.fault.value == ClassNotFound(DriverClass(name)) && r.table == table && r.order == order
    ensures r.fault.None? ==> name in r.table && r.table[name].name == name && r.table[name].cls == DriverClass(name)
  {
    match Instantiate(name, classes)
    case Err(e) => Registration(table, order, Some(e))
    case Ok(d) => Registration(table[name := d], if name in table then order else order + [name], None)
  }

  /** The state setDrivers leaves: the table, its order, and the error that
      stopped the run, if any. */
  datatype Registration = Registration(table: map<string, Driver>, order: seq<string>, fault: Option<Fault>)

  /** setDrivers on a table value: each name of `names` is instantiated and
      added, first to last, until a name's class is missing. */
  ghost function RegisterAll(table: map<string, Driver>, order: seq<string>, names: seq<string>, classes: ClassTable): Registration
    decreases |names|
  {
    if names == [] then Registration(table, order, None)
    else
      var r := RegisterAll(table, order, names[..|names| - 1], classes);
      var name := names[|names| - 1];
      if r.fault.Some? then r else SetDriverStep(r.table, r.order, name, classes)
  }

  /** One more name: RegisterAll of the next prefix instantiates that name
      and adds it, or stops with its error. */
  lemma RegisterAllNext(table: map<string, Driver>, order: seq<string>, names: seq<string>, i: nat, classes: ClassTable)
    requires i < |names| && RegisterAll(table, order, names[..i], classes).fault.None?
    ensures var r := RegisterAll(table, order, names[..i], classes);
      RegisterAll(table, order, names[..i + 1], classes) == SetDriverStep(r.table, r.order, names[i], classes)
  {
    assert names[..i + 1][..i] == names[..i];
  }

  /** Once a prefix of the names stops on an error, the whole run stops
      there with the same state. */
  lemma {:induction false} RegisterAllFaultSticks(table: map<string, Driver>, order: seq<string>, names: seq<string>, k: nat, classes: ClassTable)
    requires k <= |names| && RegisterAll(table, order, names[..k], classes).fault.Some?
    ensures RegisterAll(table, order, names, classes) == RegisterAll(table, order, names[..k], classes)
    decreases |names| - k
  {
    if k < |names| {
      var init := names[..|names| - 1];
      assert init[..k] == names[..k];
      RegisterAllFaultSticks(table, order, init, k, classes);
    } else {
      assert names[..k] == names;
    }
  }

  /** setDrivers keeps the table well formed and keeps the old iteration
      order as a prefix of the new one. */
  lemma {:induction false} RegisterAllWellFormed(table: map<string, Driver>, order: seq<string>, names: seq<string>, classes: ClassTable)
    requires WellFormed(table, order)
    ensures var r := RegisterAll(table, order, names, classes);
      WellFormed(r.table, r.order) && order <= r.order
    decreases |names|
  {
    if names != [] {
      var init, name := names[..|names| - 1], names[|names| - 1];
      RegisterAllWellFormed(table, order, init, classes);
      var r := RegisterAll(table, order, init, classes);
      if r.fault.None? && Instantiate(name, classes).Ok? {
        PutKeepsWellFormed(r.table, r.order, Instantiate(name, classes).value);
      }
    }
  }

  /** setDrivers fails exactly when some listed driver class is missing,
      and then with the error for the first such name. */
  lemma {:induction false} RegisterAllFault(table: map<string, Driver>, order: seq<string>, names: seq<string>, classes: ClassTable)
    ensures var r := RegisterAll(table, order, names, classes);
      (r.fault.None? <==> forall n :: n in names ==> DriverClass(n) in classes)
    ensures var r := RegisterAll(table, order, names, classes);
      r.fault.Some? ==> exists i :: (0 <= i < |names| && DriverClass(names[i]) !in classes &&
        r.fault == Some(ClassNotFound(DriverClass(names[i]))) &&
        forall j :: 0 <= j < i ==> DriverClass(names[j]) in classes)
    decreases |names|
  {
    if names != [] {
      var init := names[..|names| - 1];
      RegisterAllFault(table, order, init, classes);
      assert forall n :: n in names <==> n in init || n == names[|names| - 1];
      assert forall j :: 0 <= j < |init| ==> init[j] == names[j];
    }
  }

  /** After a successful setDrivers the keys are the old ones plus the
      listed names, and each listed name holds its own instance. */
  lemma {:induction false} RegisterAllRegisters(table: map<string, Driver>, order: seq<string>, names: seq<string>, classes: ClassTable)
    ensures var r := RegisterAll(table, order, names, classes);
      r.fault.None? ==>
        && (forall n :: n in r.table <==> n in table || n in names)
        && (forall n :: n in names ==> Registered(r.table, n, classes))
    decreases |names|
  {
    if names != [] {
      var init := names[..|names| - 1];
      RegisterAllRegisters(table, order, init, classes);
      assert forall n :: n in names <==> n in init || n == names[|names| - 1];
    }
  }

  /** setDrivers never touches an entry whose name is not listed, whether
      or not it succeeds. */
  lemma {:induction false} RegisterAllKeepsUnlisted(table: map<string, Driver>, order: seq<string>, names: seq<string>, classes: ClassTable)
    ensures var r := RegisterAll(table, order, names, classes);
      forall n :: n in table && n !in names ==> n in r.table && r.table[n] == table[n]
    decreases |names|
  {
    if names != [] {
      var init := names[..|names| - 1];
      RegisterAllKeepsUnlisted(table, order, init, classes);
      assert forall n :: n !in names ==> n !in init;
    }
  }

  /** A driver whose configuration names its own type and adds one rule. */
  function SampleDriver(name: string, rule: AttributeRule): Driver
  {
    Driver(name, DriverClass(name), map["driver" := Str(name), "attributes" := List([Rule(rule)])])
  }

  /** The root of a sample driver: the five default rules plus its own,
      the defaults' other keys, the qualified driver and its plugin context. */
  lemma SampleRoot(name: string, rule: AttributeRule)
    ensures RootOf(SampleDriver(name, rule)).Ok?
    ensures var root := RootOf(SampleDriver(name, rule)).value;
      && root.Keys == DefaultDriverSettings().Keys + {"driver", "plugin"}
      && root["attributes"] == List(DefaultRules() + [Rule(rule)])
      && |root["attributes"].items| == 6
      && root["uploadOverwrite"] == Bool(false)
      && root["driver"] == Str(DriverClass(name))
      && root["plugin"] == PluginContext(name)
  {
    var c := SampleDriver(name, rule).config;
    assert IsSet(c, "driver") && AttributesMergeable(c) && OwnRules(c) == [Rule(rule)];
    assert c.Keys == {"driver", "attributes"};
  }

  /** The roots of two drivers are their two roots, in order. */
  lemma RootsOfTwo(a: Driver, b: Driver)
    requires RootOf(a).Ok? && RootOf(b).Ok?
    ensures RootsOf([a, b]) == Ok([RootOf(a).value, RootOf(b).value])
  {
    var ds := [a, b];
    assert RootOf(ds[0]).Ok? && RootOf(ds[1]).Ok?;
    var roots := RootsOf(ds).value;
    assert roots[0] == RootOf(a).value && roots[1] == RootOf(b).value;
    assert roots == [RootOf(a).value, RootOf(b).value];
  }

  /** Two drivers that each add one rule give two roots, in order, each with
      the five default rules plus its own, no upload overwrite, the driver
      qualified with the namespace, and its own name in the plugin context. */
  lemma TwoDriverRoots(rule: AttributeRule)
    ensures var ds := [SampleDriver("HomeDriver", rule), SampleDriver("PersonalDriver", rule)];
      && RootsOf(ds).Ok?
      && |RootsOf(ds).value| == 2
      && RootsOf(ds).value[0] == RootOf(SampleDriver("HomeDriver", rule)).value
      && RootsOf(ds).value[1] == RootOf(SampleDriver("PersonalDriver", rule)).value
  {
    SampleRoot("HomeDriver", rule);
    SampleRoot("PersonalDriver", rule);
    RootsOfTwo(SampleDriver("HomeDriver", rule), SampleDriver("PersonalDriver", rule));
  }

  /** Registering HomeDriver and then the unknown GhostDriver: the lookup
      finds the HomeDriver instance, the second call fails with the class
      it could not find, and the registry keeps only HomeDriver. */
  method RegistryRoundTrip(classes: ClassTable) returns (first: Option<Fault>, found: Option<Driver>, fault: Option<Fault>)
    requires DriverClass("HomeDriver") in classes && DriverClass("GhostDriver") !in classes
    ensures first == None
    ensures found == Some(Driver("HomeDriver", DriverClass("HomeDriver"), classes[DriverClass("HomeDriver")]))
    ensures fault == Some(ClassNotFound(DriverClass("GhostDriver")))
  {
    var connector := new Connector();
    first := connector.SetDriver("HomeDriver", classes);
    fault := connector.SetDriver("GhostDriver", classes);
    found := connector.GetDriver("HomeDriver");
  }
}
