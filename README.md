# gulp-msbuild: the command line and the executable finder, in Dafny

gulp-msbuild runs MSBuild (or, off Windows, `xbuild`) on each file of a gulp
stream. Two pieces of the plugin decide what gets run:

- `lib/msbuild-finder.js` (`find`) chooses the executable from the platform,
  the requested tools version, the architecture, the Windows directory, the
  plugin's version table and two environment variables. It is modelled as
  the pure function `MsbuildFinder.Find`, returning the path or the error
  `find` throws.
- `lib/msbuild-command-builder.js` assembles the argument vector.
  `buildArguments` pushes switches one by one onto an array and, when a
  configuration is set, overwrites `options.properties` with the merged
  properties. `construct` rejects empty options, fills in
  `options.msbuildPath` from the finder when it is unset, and returns the
  executable and the arguments. The options object is the class
  `MsbuildCommandBuilder.Options`; the methods `BuildArguments` and
  `Construct` take an `Options` and change it in place. They are proved against
  `MsbuildCommandBuilder.Arguments`, the argument list as a function of the
  options' values.

Supporting modules:

| module | what it models |
|---|---|
| `Strings` | JavaScript truthiness of a string-or-undefined value, `\|\|`, `join`, and the decimal rendering of a count; `split` is not called by the plugin and serves only to read the written lists back |
| `Paths` | `path.join` with '/' |
| `Properties` | the `properties` object as its key-ordered entries, and lodash `_.extend` on it |

What the list promises is proved in two modules:

- `SwitchKinds` and `ArgumentLayout` classify each argument by the switch
  it starts with. They prove the order of the switches, and when each is
  present.
- `ArgumentValues` reads the values back: the targets, the processor count
  and the properties. It proves that each reading inverts what the builder
  writes.

The model follows the code in `lib/`, where the repository's tests expect
otherwise:

- Property values are not quoted (`/property:Configuration=Release`).
- `buildArguments` returns an array.
- The 64-bit 12.0 and 14.0 tools are under `Bin/amd64`.

Two further facts about `lib/` that the model keeps:
lib/msbuild-command-builder.js:13 writes `/toolsversion:` on every call, and
lib/msbuild-finder.js looks only at the version table, with no detection of
installed Visual Studio versions.

## Model

| member | source | states |
|---|---|---|
| `Strings.Or` | lib/msbuild-finder.js:24 | `a \|\| b` is truthy exactly when one of them is; it is `a` when `a` is truthy and `b` otherwise |
| `Strings.Join` | lib/msbuild-command-builder.js:11 | `parts.join(sep)` is empty for no parts, starts with the first part, and is as long as the parts together plus one separator between each two |
| `Strings.DecimalString` | lib/msbuild-command-builder.js:36 | a non-negative count prints as a non-empty run of digits, with a leading '0' only for 0 |
| `Strings.ParseDecimalString` | lib/msbuild-command-builder.js:36 | the digits printed for a count read back as that count |
| `Strings.SplitJoin` | lib/msbuild-command-builder.js:11 | splitting a `;`-joined list of one or more items at `;` gives the list back when no item holds `;` |
| `Strings.SplitAtFirstConcat` | lib/msbuild-command-builder.js:51 | `name=value` splits at its first '=' into `name` and `value` when the name holds no '=' |
| `Paths.NonEmpty` | lib/msbuild-finder.js:28 | `path.join` keeps a segment exactly when it is non-empty, so the empty `x64_dir` disappears; a single segment is kept unless empty |
| `Paths.NonEmptyConcat` | lib/msbuild-finder.js:28 | filtering the segments distributes over concatenation; with the single-segment case this keeps the segments in order and with their repetitions |
| `Paths.JoinPath` | lib/msbuild-finder.js:25-32 | `path.join` never returns the empty string: "." when every segment is empty, otherwise a path starting with the first kept segment |
| `Paths.JoinPathOfNonEmpty` | lib/msbuild-finder.js:32 | with no empty segment, `path.join` is the plain '/'-join of all segments |
| `Paths.JoinPathPair` | lib/msbuild-finder.js:25 | two non-empty segments join as `a/b` |
| `Paths.JoinPathEndsWithLast` | lib/msbuild-finder.js:28 | when the last segment is non-empty and some earlier segment is kept, the joined path ends with '/' and that last segment (as for every path the finder builds) |
| `Paths.JoinPathSegments` | lib/msbuild-finder.js:28 | when some segment is non-empty and no segment contains '/', splitting the joined path at '/' gives back the kept segments |
| `Properties.Lookup` | lib/msbuild-command-builder.js:51 | `obj[name]` is defined exactly for the object's keys, and is the value stored under that key |
| `Properties.Assign` | lib/msbuild-command-builder.js:45-47 | assigning a key adds it to the keys, grows the object only when the key is new, and keeps keys distinct |
| `Properties.AssignLookup` | lib/msbuild-command-builder.js:45-47 | after `obj[name] = value`, `obj[name]` is `value` and every other key reads as before |
| `Properties.AssignInPlace` | lib/msbuild-command-builder.js:45-47 | assigning a key the object has replaces that entry's value in its position and leaves every other entry as it was |
| `Properties.AssignNew` | lib/msbuild-command-builder.js:45-47 | assigning a key the object lacks appends it at the end |
| `Properties.Extend` | lib/msbuild-command-builder.js:45-47 | `_.extend(dest, src)` has the keys of both, and keeps the keys of `dest` distinct |
| `Properties.ExtendLookup` | lib/msbuild-command-builder.js:45-47 | after `_.extend(dest, src)`, a key of `src` holds `src`'s value and any other key its value in `dest` |
| `Properties.ExtendAfterFirst` | lib/msbuild-command-builder.js:45-47 | `_.extend` onto an object whose other keys the source does not have (as for `{Configuration: c}`) keeps its first key in place with the value the source gives it, then appends the source's other keys in order |
| `MsbuildFinder.ProgramFilesRoot` | lib/msbuild-finder.js:24-25 | the install root is `ProgramFiles(x86)` if set, else `ProgramFiles`, else `C:/Program Files (x86)` for x64 and `C:/Program Files` otherwise |
| `MsbuildFinder.Find` | lib/msbuild-finder.js:8-33 | off Windows the result is `xbuild`; the missing-version error is raised exactly on Windows with an unmapped tools version; every Windows path ends in `/MSBuild.exe`; a found path is never empty |
| `MsbuildFinder.VersionRequired` | lib/msbuild-finder.js:13-16 | on Windows the finder throws "No MSBuild Version was supplied!" exactly when the version table has no entry, or an empty one, for the tools version (this is how `LookupVersion` is used) |
| `MsbuildFinder.ModernToolsPath` | lib/msbuild-finder.js:20-28 | versions 12.0 and 14.0 resolve to `<root>/MSBuild/<version>/Bin/MSBuild.exe`, with `amd64/` before the executable exactly for x64 |
| `MsbuildFinder.ModernPathString` | lib/msbuild-finder.js:27-28 | joining the modern segments drops the empty 32-bit `x64_dir` and yields the path above |
| `MsbuildFinder.FrameworkToolsPath` | lib/msbuild-finder.js:31-32 | other mapped versions resolve to `<windir>/Microsoft.Net/<Framework or Framework64>/<version>/MSBuild.exe` for a non-empty Windows directory, to the relative `Microsoft.Net/<Framework or Framework64>/<version>/MSBuild.exe` for an empty one, and an undefined one makes `path.join` throw |
| `MsbuildFinder.OnlyX64Is64Bit` | lib/msbuild-finder.js:18 | every architecture other than exactly "x64" finds what an absent architecture finds |
| `MsbuildCommandBuilder.MergedProperties` | lib/msbuild-command-builder.js:44-48 | without a configuration the properties are unchanged; with one they gain the key `Configuration`; distinct keys stay distinct |
| `MsbuildCommandBuilder.MergedLookup` | lib/msbuild-command-builder.js:44-48 | after the merge every property the caller set keeps its value, and an unset `Configuration` holds the configuration |
| `MsbuildCommandBuilder.ArgumentsShape` | lib/msbuild-command-builder.js:9-58 | the list opens with the target, verbosity and tools-version switches, is as long as the switches, the merged properties and the custom arguments together, and ends with the custom arguments verbatim; with none, it is the switches alone |
| `MsbuildCommandBuilder.PushSwitches` | lib/msbuild-command-builder.js:10-42 | the pushes before the properties produce exactly the leading switches the options call for |
| `MsbuildCommandBuilder.PushLaterSwitches` | lib/msbuild-command-builder.js:23-42 | the console logger, logger, maxcpucount and node reuse pushes append exactly the switches their options call for, in that order |
| `MsbuildCommandBuilder.PushProperties` | lib/msbuild-command-builder.js:50-52 | the loop over the properties appends one `/property:name=value` per entry, in key order |
| `MsbuildCommandBuilder.BuildArguments` | lib/msbuild-command-builder.js:9-59 | returns the full argument list of the original options; the properties become the merged properties, a `properties` key appears when a configuration is set, and nothing else changes |
| `MsbuildCommandBuilder.Locate` | lib/msbuild-command-builder.js:66-69 | an unset `msbuildPath` becomes the finder's result and a new key, or the finder's error is returned with the options unchanged; a set one is left alone |
| `MsbuildCommandBuilder.Construct` | lib/msbuild-command-builder.js:61-77 | absent or keyless options give "No options specified!" and are left alone; a set `msbuildPath` is kept; otherwise the finder's result is stored, or its error is returned with the options unchanged; the args are the file path followed by the argument list; on success the keys gain exactly `msbuildPath` when it was unset and `properties` when a configuration is set, so a second call still gets past the key check |
| `MsbuildCommandBuilder.MergeConfiguration` | lib/msbuild-command-builder.js:44-48 | with a configuration, the merged properties start with `Configuration` (the caller's own value wins), followed by the caller's other properties in order, all keys distinct; without one, the properties are unchanged |
| `MsbuildCommandBuilder.BuildArgumentsTwice` | lib/msbuild-command-builder.js:44-52 | running `buildArguments` again on the updated options changes neither the options nor the list |
| `ArgumentLayout.KindOfSwitch` | lib/msbuild-command-builder.js:11-51 | no switch is a prefix of another, so every argument a switch begins is classified as that switch, whatever its value |
| `ArgumentLayout.OptionalSwitchKinds` | lib/msbuild-command-builder.js:19-29 | `/flp:`, `/clp:` and `/logger:` appear, once, exactly when their option is truthy |
| `ArgumentLayout.MaxCpuKinds` | lib/msbuild-command-builder.js:31-38 | a `/maxcpucount` switch appears, once, exactly for a non-negative count with an executable other than `xbuild` |
| `ArgumentLayout.PropertyKinds` | lib/msbuild-command-builder.js:50-52 | every property argument is a `/property:` switch |
| `ArgumentLayout.LeadingKinds` | lib/msbuild-command-builder.js:10-42 | the switches before the properties are target, verbosity and tools version, then each optional switch exactly when its option calls for it, in push order |
| `ArgumentLayout.SwitchLayout` | lib/msbuild-command-builder.js:11-52 | the switch arguments are, in order: target, verbosity, tools version, then nologo, file logger, console logger, logger, maxcpucount and node reuse, each present as its option decides, then one `/property:` per merged property |
| `ArgumentLayout.SwitchOrder` | lib/msbuild-command-builder.js:9-58 | the switches come in strictly increasing order of that sequence, except for repeated `/property:`; the custom arguments follow all of them verbatim |
| `ArgumentLayout.SwitchPresence` | lib/msbuild-command-builder.js:15-52 | each switch other than `/property:` appears exactly when its option calls for it, and never twice; `/property:` appears exactly when there is a merged property |
| `ArgumentValues.TargetsReadBack` | lib/msbuild-command-builder.js:11 | the first argument is `/target:`, and its value split at ';' gives the targets when there is one or more and none holds ';' |
| `ArgumentValues.MaxCpuReadBack` | lib/msbuild-command-builder.js:31-38 | when written, the processor-count switch is a single argument that reads back as the count; it is the bare switch exactly for 0, and for n > 0 it is followed by ':' and digits with no leading zero |
| `ArgumentValues.XbuildOmitsMaxCpu` | lib/msbuild-command-builder.js:31-38 | off Windows with no executable given, the finder fills in `xbuild` (lib/msbuild-finder.js:9-11) and no `/maxcpucount` switch is written, whatever the count |
| `ArgumentValues.PropertyReadBack` | lib/msbuild-command-builder.js:51 | one property argument reads back as its property when the name holds no '=' |
| `ArgumentValues.PropertiesListReadBack` | lib/msbuild-command-builder.js:50-52 | the property arguments read back as the properties, in order, when no property name holds '=' |
| `ArgumentValues.PropertiesReadBack` | lib/msbuild-command-builder.js:44-52 | the arguments after the leading switches read back as exactly the merged properties, in order |

## Left out

- lib/msbuild-runner.js is not part of this model. It spawns the process, wires its standard streams and logs.
- index.js is not part of this model. It is the stream glue, the merging of defaults and option validation.
- The plugin's constants module is not part of this model. The version table is a `map` parameter of `Find`; the plugin name is dropped from the error.
- `parseFloat(toolsVersion).toFixed(1)` is floating-point formatting. It is the function parameter `fixed1`.
- `path.normalize` is the parameter `normalize`. `path.join` is modelled as joining the non-empty segments with '/' ("." when none is left); it does not resolve `..`, `.` or repeated separators.
- `process.env` is the `Environment` parameter.
- The key order of a JavaScript object is modelled as insertion order. Integer-like keys, which JavaScript enumerates first, are not modelled.
- `Object.keys(options)` is the field `keys`. It is kept separately from the other fields; only the two keys the builder adds are tracked.
- `maxcpucount` is an optional integer. A `null` count, which JavaScript compares as 0 and prints as `/maxcpucount:null`, is not modelled. Neither is a non-integer count.
- `customArgs` is a sequence: an absent value is the empty sequence. A non-array value is not modelled.
- `platform`, `toolsVersion`, `targets` and `verbosity` are always present. An undefined `platform` or `targets`, which makes the JavaScript throw, is not modelled.
- `path.join` throws when handed `undefined`. Only the case of an undefined Windows directory reaches it, and that case is the error `PathTypeError`.
- `Strings.DecimalString`: prints every count as plain digits. JavaScript writes counts from 10^21 up in exponent form (`/maxcpucount:1e+21`) and holds integers above 2^53 inexactly; such counts are not modelled.
- `Strings.SplitJoin`: does not cover the empty list, which joins to "" and splits back as one empty item.
- `Paths.JoinPathSegments`: does not cover segments that contain '/', such as a `C:/Program Files` root or a `C:/WINDOWS` directory, whose pieces split apart further.
- `ArgumentValues.TargetsReadBack`: does not cover an empty target list, whose `/target:` argument reads back as one empty target.
- `ArgumentValues.PropertiesReadBack`: does not cover property names that hold '=', which read back split at the wrong place.
- `ArgumentValues.PropertiesListReadBack`: likewise does not cover property names that hold '='.
