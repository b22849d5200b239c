# Bldr Composer plugin: the block manifest synchroniser

The Bldr Composer plugin keeps a manifest of "block" classes in step with the
packages Composer installs, updates and removes. The manifest is a YAML file
holding an ordered list of class names. A package advertises its block class
under the `block-class` key of its extra metadata. After an install or an
update, the plugin registers the (target) package's block: it appends the class
unless it is already listed. Before an install or an update, and after an
uninstall, it unregisters the (initial) package's block: it deletes the first
listed occurrence of the class. Either operation is a no-op when the package
declares no block class. The manifest's path is the `block-loader`
configuration value, or `.bldr/blocks.yml` by default. It is looked up once,
memoised in the plugin, and an empty file is created there on that first
lookup if none exists. An empty manifest file reads as the empty list.

The model has five modules:

- `Wrappers` (wrappers.dfy): `Option`, standing in for PHP's `null`.
- `Manifest` (manifest.dfy): the manifest as a `seq<string>`. `FirstIndex`
  models `array_search`. `Register` and `Unregister` are the two list
  transforms, returning `None` when nothing is written. `Applied` and
  `AppliedAll` apply one change or a series of them. The lemmas cover the
  no-duplicates invariant, idempotence, the register/unregister inverse and
  order preservation.
- `Bldr` (bldr.dfy): packages and their block class, and the manifest file as
  a parsed `Document` (`Null`, `List` or `Malformed`). It defines path
  resolution, and `Sync`, the effect of registering or unregistering on the
  plugin's whole state (memoised path and files). It also defines the event
  subscriptions and the routing of each handler to an action.
- `BldrPluginClass` (plugin.dfy): the class `BldrPlugin`. Its fields are the
  configuration, the memoised path and the files. Each method updates these in
  place, and each is proved to have the effect `Sync` (or `Resolved`) gives it.
- `Lifecycle` (lifecycle.dfy): properties of whole series of events. Replaying
  events does to the manifest exactly what `AppliedAll` does. The invariant
  and the memoised path survive any series. Install followed by uninstall
  restores the manifest, and an update that keeps the block class moves the
  class to the end.

The empty manifest file is created only on the first lookup, before the path
is memoised (src/BldrPlugin.php:142-152); later lookups do not test for it.

## Model

| member | source | states |
|---|---|---|
| `Manifest.FirstIndex` | src/BldrPlugin.php:219 | the search finds nothing exactly when the class is not listed; otherwise it gives an index holding the class, with no earlier occurrence |
| `Manifest.Register` | src/BldrPlugin.php:191-199 | nothing is written exactly when the class is already listed; otherwise the written list is the old list, unchanged and in order, with the class appended at the end |
| `Manifest.Unregister` | src/BldrPlugin.php:214-221 | nothing is written exactly when the class is not listed; otherwise the written list deletes the first occurrence and keeps the other entries in order, one shorter, with the same multiset less one copy of the class |
| `Manifest.RegisterKeepsNoDuplicates` | src/BldrPlugin.php:191-199 | registering keeps every class listed at most once |
| `Manifest.UnregisterKeepsNoDuplicates` | src/BldrPlugin.php:214-221 | unregistering keeps every class listed at most once |
| `Manifest.AppliedKeepsNoDuplicates` | src/BldrPlugin.php:184-222 | either change keeps every class listed at most once |
| `Manifest.AppliedAllKeepsNoDuplicates` | src/BldrPlugin.php:184-222 | after any series of registrations and unregistrations, no class is listed twice |
| `Manifest.RegisterIdempotent` | src/BldrPlugin.php:193-195 | a second registration writes nothing and leaves the list as the first left it; under the invariant the class occurs exactly once |
| `Manifest.RegisterThenUnregister` | src/BldrPlugin.php:184-222 | registering an unlisted class and then unregistering it restores the exact prior list |
| `Manifest.UnregisterAbsent` | src/BldrPlugin.php:216-218 | unregistering an unlisted class writes nothing and leaves the list unchanged |
| `Manifest.UnregisterRemovesAll` | src/BldrPlugin.php:214-221 | under the invariant, unregistering leaves no occurrence of the class, and removes exactly one copy when it was listed |
| `Manifest.UnregisterDuplicateKeepsOne` | src/BldrPlugin.php:219 | without the invariant only the first occurrence is deleted: `[A, A]` becomes `[A]` |
| `Manifest.UnregisterKeepsOrder` | src/BldrPlugin.php:214-221 | unregistering B from `[A, B, C]` gives `[A, C]` |
| `Manifest.RegisterThreeUnregisterMiddle` | src/BldrPlugin.php:184-222 | registering A, B, C into an empty manifest and then unregistering B gives `[A, C]` |
| `Bldr.BlockClass` | src/BldrPlugin.php:162-167 | a package has a block class exactly when its extra metadata has the `block-class` key, and the class is that key's value |
| `Bldr.LoaderContents` | src/BldrPlugin.php:169-177 | a document that parses to null reads as the empty list, a list as itself, and only a malformed document fails |
| `Bldr.ConfiguredPath` | src/BldrPlugin.php:146-148 | the path is the `block-loader` configuration value when present, otherwise `.bldr/blocks.yml` |
| `Bldr.Touch` | src/BldrPlugin.php:150-152 | a missing file at the path is created empty; every existing file is kept as it was |
| `Bldr.LoaderPath` | src/BldrPlugin.php:140-148 | the path used is the memoised one when set, otherwise the configured one |
| `Bldr.Resolved` | src/BldrPlugin.php:140-155 | after the lookup the path is memoised and its file exists; a memoised lookup leaves the files untouched |
| `Bldr.Sync` | src/BldrPlugin.php:184-222 | a package without a block class changes nothing, not even the memoised path; otherwise the path is memoised, a malformed manifest gives a parse error, and a readable manifest becomes the list transform's result, with a write exactly when the transform writes; no file other than the manifest changes |
| `Bldr.SubscribedEvents` | src/BldrPlugin.php:71-90 | the subscription keys are exactly the names of the five handled events (pre- and post-install, pre- and post-update, post-uninstall), and distinct events go to distinct handlers |
| `Bldr.PreUninstallNotSubscribed` | src/BldrPlugin.php:73-89 | Composer's `pre-package-uninstall` event is not among the subscriptions |
| `Bldr.Route` | src/BldrPlugin.php:92-135 | a handler registers a block exactly when it runs after an install or an update |
| `Bldr.Dispatch` | src/BldrPlugin.php:71-135 | pre-install and post-uninstall unregister the operation's package, pre-update unregisters the initial package, post-install registers the operation's package, post-update registers the target package |
| `BldrPluginClass.BldrPlugin.constructor` | src/BldrPlugin.php:53-56 | a new plugin has no memoised path and no configuration until activated, over the files given |
| `BldrPluginClass.BldrPlugin.Activate` | src/BldrPlugin.php:62-66 | activation stores the host's configuration, which the path lookup needs until the path is memoised |
| `BldrPluginClass.BldrPlugin.GetBlockLoader` | src/BldrPlugin.php:140-155 | a memoised path is returned as it is, without reading the configuration or touching the disk; otherwise the configured or default path is memoised, an empty file is created there if missing, and the path is returned |
| `BldrPluginClass.BldrPlugin.GetLoaderContents` | src/BldrPlugin.php:169-177 | returns the manifest list the state denotes, with an empty file read as the empty list, or a failure for a malformed file; the path is resolved as `GetBlockLoader` does |
| `BldrPluginClass.BldrPlugin.AddBlockToLoader` | src/BldrPlugin.php:184-200 | the result and the new state are exactly what `Sync` gives for registering the package's block |
| `BldrPluginClass.BldrPlugin.RemoveBlockFromLoader` | src/BldrPlugin.php:207-222 | the result and the new state are exactly what `Sync` gives for unregistering the package's block |
| `BldrPluginClass.BldrPlugin.OnPrePackageInstall` | src/BldrPlugin.php:95-99 | the result and the new state are those of unregistering the block of the package being installed; a malformed manifest is reported as a parse error |
| `BldrPluginClass.BldrPlugin.OnPrePackageUpdate` | src/BldrPlugin.php:104-108 | the result and the new state are those of unregistering the block of the initial package of the update; a malformed manifest is reported as a parse error |
| `BldrPluginClass.BldrPlugin.OnPostPackageInstall` | src/BldrPlugin.php:113-117 | the result and the new state are those of registering the block of the installed package; a malformed manifest is reported as a parse error |
| `BldrPluginClass.BldrPlugin.OnPostPackageUpdate` | src/BldrPlugin.php:122-126 | the result and the new state are those of registering the block of the target package of the update; a malformed manifest is reported as a parse error |
| `BldrPluginClass.BldrPlugin.OnPostPackageUninstall` | src/BldrPlugin.php:131-135 | the result and the new state are those of unregistering the block of the uninstalled package; a malformed manifest is reported as a parse error |
| `Lifecycle.Replay` | src/BldrPlugin.php:71-135 | handling a series of events, one at a time in order, keeps the memoised path's file in existence |
| `Lifecycle.ReplayIsAppliedAll` | src/BldrPlugin.php:71-222 | handling a series of events does to a readable manifest exactly what applying its block changes in order does |
| `Lifecycle.ReplayKeepsNoDuplicates` | src/BldrPlugin.php:184-222 | no series of events makes a readable manifest list a class twice |
| `Lifecycle.ReplayKeepsPath` | src/BldrPlugin.php:142-144 | once memoised, the manifest path never changes |
| `Lifecycle.ReplayAfterParseErrorChangesNothing` | src/BldrPlugin.php:169-177 | once the memoised manifest is malformed, handling any further events leaves the state exactly as it was, as aborting at the parse error would |
| `Lifecycle.MemoisedPathIgnoresConfig` | src/BldrPlugin.php:142-148 | once the path is memoised, the configuration has no effect on registering or unregistering |
| `Lifecycle.InstallThenUninstall` | src/BldrPlugin.php:113-135 | installing a package whose block is not listed and then uninstalling it restores the manifest |
| `Lifecycle.UpdateMovesBlockToEnd` | src/BldrPlugin.php:104-126 | an update that keeps the block class moves the class to the end of the manifest, listed once |
| `Lifecycle.FirstRegistrationCreatesManifest` | src/BldrPlugin.php:140-199 | with no file at the configured path, registering a block creates the manifest listing exactly that block |

## Left out

- YAML text: `Yaml::parse` and `Yaml::dump` belong to a foreign library. A file is modelled by what it parses to: null (empty or blank), a list of class names, or a parse failure. Documents that parse to a scalar or a mapping of other shapes are not modelled.
- Writing the manifest is modelled as storing the list itself. The model assumes that `Yaml::parse(Yaml::dump($loader, 4))` gives back the list's values in order. This includes a list with the key gaps `unset` leaves, which `Yaml::dump` writes as a mapping with integer keys. This round trip is assumed, not proved.
- BldrPluginClass.BldrPlugin.AddBlockToLoader: a failed write (`file_put_contents` returning `false`) and the byte count it returns are not modelled; every write succeeds and reports `Written`.
- BldrPluginClass.BldrPlugin.RemoveBlockFromLoader: the same holds for its write.
- BldrPluginClass.BldrPlugin.GetBlockLoader: a `touch` that fails is not modelled; the empty file is always created. The most likely failure is the default path on a fresh project: `touch` does not create the missing `.bldr/` directory, and nothing else in the plugin creates it (the `Filesystem` made at src/BldrPlugin.php:55 is unused). `Lifecycle.FirstRegistrationCreatesManifest` holds only where the file's directory exists.
- A manifest file deleted by someone else after the path was memoised is not modelled. The class invariant keeps the memoised path's file present, and only this plugin changes the files.
- `in_array` and `array_search` compare loosely in PHP; the model compares class names as exact strings.
- `unset` leaves a gap in the PHP array's keys, which changes how the list is dumped. The model keeps only the sequence of values.
- Composer's objects (`Composer`, `IOInterface`, config objects, `PackageEvent`, `PackageInterface`) are reduced to a configuration map, a `Package` record, an `Operation` and a `PackageEvent` datatype. The `Filesystem` the constructor creates is unused by the core and is not modelled.
- Extra metadata values are strings; a `block-class` set to `null` counts as absent, as `isset` treats it, and non-string values are not modelled.
- BldrPluginClass.BldrPlugin.constructor: a plugin used before `activate` is not modelled. In PHP, `$composer` is null until then, and the first path lookup fails on `getConfig()` (src/BldrPlugin.php:146). The path lookup and the methods that reach it require the plugin to be activated or the path already memoised. Composer activates a plugin before dispatching events to it.
- BldrPluginClass.BldrPlugin.OnPrePackageInstall, OnPrePackageUpdate, OnPostPackageInstall, OnPostPackageUpdate and OnPostPackageUninstall: in PHP a malformed manifest makes `Yaml::parse` throw out of the handler (src/BldrPlugin.php:171), which aborts Composer's run. The model's handlers return `ParseError` instead. `Lifecycle.Replay` goes on with later events, and `Lifecycle.ReplayAfterParseErrorChangesNothing` proves those events leave the state unchanged.
- Handlers require the operation kind Composer pairs with their event: install operations for the install events, update operations for the update events, uninstall operations for post-uninstall.
- Concurrency and races between processes writing the manifest are not modelled; events are handled one at a time.
