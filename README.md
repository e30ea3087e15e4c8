# elFinder connector of Chamilo, modelled in Dafny

This project models the core of Chamilo's elFinder connector
(`Chamilo\CoreBundle\Component\Editor\Connector`). The connector is the
configuration object that wires the elFinder file manager to Chamilo's
storage drivers (course files, course-user files, drop box, home, personal
files). It does four things:

- **Default policy** (`DefaultPolicy`): the fixed baseline every root starts from.
  - Uploads never overwrite.
  - Fifteen upload entries are allowed, and only the allow list is consulted.
  - Twelve elFinder commands are disabled.
  - Five attribute rules hide server-side scripts, `_DELETED_` files, and the thumbnail and quarantine folders.
  - It also holds the built-in driver list and the driver namespace `Chamilo\CoreBundle\Component\Editor\Driver\`.
- **Configuration merge** (`ConfigMerger.UpdateWithDefaultValues`): a driver's own configuration is merged over the baseline.
  - Ordinary keys follow `array_merge`: the driver's value wins.
  - `attributes` is the default rules followed by the driver's rules.
  - `driver` is qualified with the namespace.
  - A configuration without `driver` yields the empty configuration.
- **Driver registry** (`Editor.Connector`): a table of driver instances keyed by name, updated in place.
  - The last write wins.
  - Like a PHP array, an overwritten key keeps its place in the iteration order.
  - `setDrivers` instantiates every name of the driver list.
- **Roots and access** (`Editor.Connector.GetRoots`, `Editor.Access`):
  - `getRoots` builds one merged root per registered driver, in registry order, each tagged with `plugin.chamilo.driverName`.
  - `getOperations` registers the drivers, then returns the roots with the command hook and `sessionCloseEarlier = false`.
  - `access` denies `read`/`write` and grants every other attribute on paths whose basename starts with `.`, and leaves every other path undecided.

Configuration arrays are `map<string, Value>`; `Value` covers the kinds the
connector stores: null, booleans, strings, lists, string-keyed arrays,
attribute rules and the back-reference to the connector. PHP 8's runtime
errors become the `Php.Fault` datatype, carried in a `Result`:

- `array_merge` with a non-array `attributes` is `ArrayMergeTypeError`.
- Concatenating the connector object into the class name is `ObjectToStringError`.
- `new $driverClass()` for a missing class is `ClassNotFound`.

The class loader is a parameter, `classes: ClassTable`. It maps each loadable
driver class to the configuration its `getConfiguration()` returns.

Behaviour of the code worth knowing:

- The upload allow list has 15 entries, with `application/pdf` listed twice.
- The disabled list has 12 commands.
- `getRoots` reads a driver's `getConfiguration()` before calling that driver's `setup()`.
- A driver whose configuration has no `driver` key contributes an empty root `[]`; it is not skipped.
- An unknown driver class aborts `setDrivers` and `getOperations` at that name. Drivers registered before it stay registered. No later root is built.

Modules:

- `wrappers.dfy`: `Option`, `Result` and `Collect`, which maps a fallible function over a sequence.
- `php.dfy`: values, `isset`, string conversion, `basename`.
- `default_policy.dfy`, `config_merger.dfy`: the baseline and the merge.
- `editor.dfy`: drivers, roots, `access` and the `Connector` class.

## Model

| member | source | states |
|---|---|---|
| `Php.StringOf` | src/CoreBundle/Component/Editor/Connector.php:172 | concatenating a value fails exactly for the connector object; a string converts to itself and any array to `"Array"` |
| `Php.Basename` | src/CoreBundle/Component/Editor/Connector.php:319 | the basename holds no `/`. It is the last segment of the path once trailing slashes are removed, so it is preceded by `/` or starts the path. It is empty exactly when the path is all slashes |
| `Php.BasenameOfChild` | src/CoreBundle/Component/Editor/Connector.php:319 | the basename of `dir/name` followed by any number of slashes is `name`, whatever `dir` is |
| `DefaultPolicy.DriverClass` | src/CoreBundle/Component/Editor/Connector.php:355-358 | the class is the driver namespace followed by the driver name, split exactly at the namespace's length |
| `DefaultPolicy.DriverClassInjective` | src/CoreBundle/Component/Editor/Connector.php:355-358 | two driver names resolve to the same class if and only if they are equal |
| `DefaultPolicy.DefaultDriverList` | src/CoreBundle/Component/Editor/Connector.php:339-348 | five distinct names: CourseDriver, CourseUserDriver, DropBoxDriver, HomeDriver, PersonalDriver |
| `DefaultPolicy.HidingRule` | src/CoreBundle/Component/Editor/Connector.php:222-228 | a default rule keeps its pattern and sets read=false, write=false, hidden=true, locked=false |
| `DefaultPolicy.DefaultRules` | src/CoreBundle/Component/Editor/Connector.php:220-259 | exactly five rules, one hiding rule per hidden pattern, in the source's order |
| `DefaultPolicy.DefaultDriverSettings` | src/CoreBundle/Component/Editor/Connector.php:181-261 | exactly the five keys `uploadOverwrite` (false), `uploadAllow`, `uploadOrder` (`["allow"]`), `disabled` and `attributes`. There is no `driver` and no `plugin` entry |
| `DefaultPolicy.DefaultListsShape` | src/CoreBundle/Component/Editor/Connector.php:187-219 | 15 upload entries with `application/pdf` at positions 5 and 10 only; 12 distinct disabled commands, `mkdir` among them |
| `ConfigMerger.UpdateWithDefaultValues` | src/CoreBundle/Component/Editor/Connector.php:157-176 | without a set `driver`, the result is `Ok(map[])`. Otherwise it fails exactly on an `attributes` that is neither a list nor the empty array (TypeError) or on the connector object as `driver`. On success: the keys are the union of both key sets; other keys take the driver's value, else the default; `attributes` is the default rules followed by the driver's; `driver` is `DriverClass` of the given name |
| `ConfigMerger.MergedAttributes` | src/CoreBundle/Component/Editor/Connector.php:165-173 | the merged rules number 5 + the driver's. The first five are the defaults and the rest are the driver's, in order. With no driver `attributes`, or the empty array, they are exactly the defaults |
| `Editor.Instantiate` | src/CoreBundle/Component/Editor/Connector.php:297-301 | succeeds if and only if the driver's class exists. The instance carries the requested name, that class and the class's configuration. Otherwise the error is `ClassNotFound` for that class |
| `Editor.RootOf` | src/CoreBundle/Component/Editor/Connector.php:133-142 | a driver's root is its configuration with `plugin` replaced by `{chamilo: {driverName, connector}}`, merged over the defaults. With `driver` set it carries the plugin tag, the concatenated rules and the qualified driver; without it the root is empty |
| `Editor.RootsOf` | src/CoreBundle/Component/Editor/Connector.php:126-148 | succeeds if and only if every driver's root does, and then gives one root per driver, in order |
| `Editor.Access` | src/CoreBundle/Component/Editor/Connector.php:317-322 | decided (not null) if and only if the basename starts with `.`; when decided, true if and only if the attribute is neither `read` nor `write` |
| `Editor.AccessOnLastSegment` | src/CoreBundle/Component/Editor/Connector.php:317-322 | for `dir/name` followed by any number of slashes, the answer depends only on `name[0]` and the attribute. It is the same for every `data` and `volume` |
| `Editor.DotFileExample` | src/CoreBundle/Component/Editor/Connector.php:319-320 | `read` on `/a/.secret` is false and `locked` on it is true |
| `Editor.PlainFileExample` | src/CoreBundle/Component/Editor/Connector.php:319-321 | `read` on `/a/public` is undecided |
| `Editor.Connector.constructor` | src/CoreBundle/Component/Editor/Connector.php:74 | a new connector has an empty registry and the default driver list |
| `Editor.Connector.GetDriverList` | src/CoreBundle/Component/Editor/Connector.php:77-80 | returns the current driver list |
| `Editor.Connector.SetDriverList` | src/CoreBundle/Component/Editor/Connector.php:87-90 | replaces the driver list, unvalidated, and leaves the registry unchanged |
| `Editor.Connector.AddDriver` | src/CoreBundle/Component/Editor/Connector.php:95-100 | null is ignored. A driver is stored under its own name and replaces an earlier one in place; every other entry is unchanged. A new name goes to the end of the iteration order |
| `Editor.Connector.GetDrivers` | src/CoreBundle/Component/Editor/Connector.php:102-105 | the registered drivers in iteration order: each stored driver exactly once, each under its own name |
| `Editor.Connector.GetDriver` | src/CoreBundle/Component/Editor/Connector.php:112-119 | the driver stored under the name, whose name is that name; null if and only if the name is absent |
| `Editor.Connector.SetDriver` | src/CoreBundle/Component/Editor/Connector.php:295-304 | fails if and only if the class of the name does not exist, and then changes nothing. Otherwise it stores `Instantiate(name)` under the name, last write wins |
| `Editor.SetDriverStep` | src/CoreBundle/Component/Editor/Connector.php:295-304 | one `setDriver` on a registry value: it fails if and only if the class is missing, with `ClassNotFound` for it and the registry unchanged; otherwise the name holds a driver of that name and class. `Editor.Connector.SetDriver` is proved to leave exactly this state |
| `Editor.Connector.SetDrivers` | src/CoreBundle/Component/Editor/Connector.php:283-288 | the new registry, its iteration order and the error are exactly `RegisterAll` of the old registry over the driver list: every listed name is instantiated and added, first to last, stopping at the first missing class |
| `Editor.PutKeepsWellFormed` | src/CoreBundle/Component/Editor/Connector.php:95-100 | storing a driver under its own name keeps every driver under its own name and each name once in the iteration order; a new name goes to the end |
| `Editor.RegisterAllNext` | src/CoreBundle/Component/Editor/Connector.php:285-287 | one round of the `setDrivers` loop: the next name is instantiated and stored, or the run stops with its `ClassNotFound` error and the registry as it was |
| `Editor.RegisterAllFaultSticks` | src/CoreBundle/Component/Editor/Connector.php:285-287 | once a name's class is missing, the later names change nothing: the run ends in the state it had at that name |
| `Editor.RegisterAllWellFormed` | src/CoreBundle/Component/Editor/Connector.php:283-288 | `setDrivers` keeps the registry well formed, and the old iteration order stays a prefix of the new one |
| `Editor.RegisterAllFault` | src/CoreBundle/Component/Editor/Connector.php:283-288 | `setDrivers` fails if and only if some listed class is missing; the error names the first listed name whose class is missing, and every earlier class exists |
| `Editor.RegisterAllRegisters` | src/CoreBundle/Component/Editor/Connector.php:283-288 | after a successful `setDrivers` the registered names are exactly the old ones plus the listed ones, and each listed name holds its own instance |
| `Editor.RegisterAllKeepsUnlisted` | src/CoreBundle/Component/Editor/Connector.php:283-288 | an entry whose name is not listed is kept unchanged, whether or not `setDrivers` fails |
| `Editor.Connector.GetRoots` | src/CoreBundle/Component/Editor/Connector.php:126-148 | the result is `RootsOf` of `GetDrivers()`: the roots of the registered drivers in iteration order, or the first error a root raises |
| `Editor.Connector.GetOperations` | src/CoreBundle/Component/Editor/Connector.php:263-278 | the registry and its iteration order afterwards are those of `RegisterAll` over the driver list. A missing class returns that `ClassNotFound` error. Otherwise the result is the first failing root's error, or options whose `bind` maps `upload rm mkdir` to the command hook, whose `sessionCloseEarlier` is false and whose `roots` are `RootsOf` the registry after `setDrivers` |
| `Editor.SampleRoot` | src/CoreBundle/Component/Editor/Connector.php:157-176 | a driver that names itself and adds one rule gets six rules (defaults first), `uploadOverwrite` false, the qualified driver and its own plugin tag |
| `Editor.RootsOfTwo` | src/CoreBundle/Component/Editor/Connector.php:128-147 | for any two drivers whose roots succeed, the roots are exactly those two roots, in that order |
| `Editor.TwoDriverRoots` | src/CoreBundle/Component/Editor/Connector.php:126-148 | for the two-driver sequence HomeDriver then PersonalDriver, each adding one rule, the roots succeed and are those two drivers' roots, in that order |
| `Editor.RegistryRoundTrip` | src/CoreBundle/Component/Editor/Connector.php:112-119 | registering HomeDriver succeeds; registering the unknown GhostDriver then reports its missing class, and the lookup still returns the HomeDriver instance |

## Left out

- The constructor's collaborators are not part of this model: the entity manager, URL generator, translator, security object, user, course, session, and the `path.temp` entry computed by `api_get_path(SYS_ARCHIVE_PATH)`. The core never reads them.
- `getRoots(false)` is not modelled. `$root` is assigned only when default values are processed, so that branch appends an undefined `$root` (null, with a warning) for every driver. The model is `getRoots(true)`.
- The driver classes are not part of this model. A driver is a name, a class name and the configuration its `getConfiguration()` returns, a fixed value per class (`ClassTable`). `setup()` is not modelled. It runs after that driver's configuration is read, but through the shared connector it could change other drivers' configurations, or this driver's on a later `getRoots`. Those effects are not captured.
- `Editor.Connector.SetDriver`: `setConnector($this)` is not modelled. The back-reference is the `ConnectorRef` token in the plugin context.
- `manageCommands` is an empty method. It is modelled only as the `ManageCommands` hook token bound in `getOperations`.
- The regular expressions in attribute rules are opaque strings. Only elFinder evaluates them.
- `ConfigMerger.UpdateWithDefaultValues`: a non-empty string-keyed (associative) `attributes` array is reported as `ArrayMergeTypeError`. An empty one is PHP's `[]` and merges like the empty list. PHP would merge it into a mixed array, which this value model cannot represent.
- PHP turns numeric-string array keys into integers and renumbers them in `array_merge`. Configuration and registry keys are plain strings here.
- `Php.Value` has no integer or float values. No key the connector reads holds one.
- `Editor.Instantiate`: PHP class names are case-insensitive, so `homedriver` would load `HomeDriver`. The class table is looked up by exact name.
- `Editor.Connector.AddDriver`: `empty($driver)` is modelled only for null. A driver object is never empty.
- `Php.Basename`: PHP's locale-dependent multibyte handling is not modelled. `/` is the only separator, as on Unix.
- `getDefaultDriverSettings` returns a fresh array on every call. Dafny values are immutable, so separate calls can never share mutable state.
