/**
 * The Bldr Composer plugin stripped of YAML and file I/O: packages and the
 * block class they advertise, the manifest file as a parsed document, the
 * resolution of the manifest's path, the effect of registering or
 * unregistering a package's block, and the routing of Composer's package
 * events to those two operations.
 */
module Bldr {
  import opened Wrappers
  import opened Manifest

  /** The key under a package's extra metadata that names its block class. */
  const BlockClassKey := "block-class"
  /** The configuration key that overrides the manifest's path. */
  const BlockLoaderKey := "block-loader"
  /** The manifest's path when the configuration does not override it. */
  const DefaultBlockLoader := ".bldr/blocks.yml"

  /** A Composer package, reduced to its name and its string-valued extra metadata. */
  datatype Package = Package(name: string, extra: map<string, string>)

  /** The block class a package declares, or None when it declares none. */
  function BlockClass(p: Package): (r: Option<string>)
    ensures r.None? <==> BlockClassKey !in p.extra
    ensures r.Some? ==> r.value == p.extra[BlockClassKey]
  {
    if BlockClassKey in p.extra then Some(p.extra[BlockClassKey]) else None
  }

  /**
   * The manifest file as the YAML parser sees it: a document that parses to
   * null (an empty or blank file), one that parses to a list of class names,
   * or one the parser rejects.
   */
  datatype Document = Null | List(entries: seq<string>) | Malformed

  /** The manifest list a document denotes; None when parsing it fails. */
  function LoaderContents(doc: Document): (r: Option<seq<string>>)
    ensures r.None? <==> doc.Malformed?
    ensures doc.Null? ==> r == Some([])
    ensures doc.List? ==> r == Some(doc.entries)
  {
    match doc
    case Null => Some([])
    case List(entries) => Some(entries)
    case Malformed => None
  }

  /** The document written back for a manifest list. */
  function Dump(l: seq<string>): Document {
    List(l)
  }

  /** The manifest's path as the configuration gives it. */
  function ConfiguredPath(config: map<string, string>): (path: string)
    ensures BlockLoaderKey in config ==> path == config[BlockLoaderKey]
    ensures BlockLoaderKey !in config ==> path == DefaultBlockLoader
  {
    if BlockLoaderKey in config then config[BlockLoaderKey] else DefaultBlockLoader
  }

  /** The files after making sure one exists at path: a missing file is created empty. */
  function Touch(files: map<string, Document>, path: string): (r: map<string, Document>)
    ensures r.Keys == files.Keys + {path}
    ensures path !in files ==> r[path] == Null
    ensures forall f :: f in files ==> r[f] == files[f]
  {
    if path in files then files else files[path := Null]
  }

  /**
   * What the plugin holds between calls: the memoised manifest path
   * (None until first computed) and the files on disk.
   */
  datatype State = State(blockLoader: Option<string>, files: map<string, Document>)

  /** Once the path is memoised, the file at that path exists. */
  predicate Consistent(s: State) {
    s.blockLoader.Some? ==> s.blockLoader.value in s.files
  }

  /** The path the plugin uses: the memoised one, or else the configured one. */
  function LoaderPath(s: State, config: map<string, string>): (path: string)
    ensures s.blockLoader.Some? ==> path == s.blockLoader.value
    ensures s.blockLoader.None? ==> path == ConfiguredPath(config)
  {
    s.blockLoader.GetOr(ConfiguredPath(config))
  }

  /** The state after the path has been looked up: memoised, and its file created if missing. */
  function Resolved(s: State, config: map<string, string>): (r: State)
    ensures r.blockLoader == Some(LoaderPath(s, config)) && Consistent(r)
    ensures Consistent(s) ==> r.files == (if s.blockLoader.Some? then s.files else Touch(s.files, LoaderPath(s, config)))
  {
    var path := LoaderPath(s, config);
    State(Some(path), Touch(s.files, path))
  }

  /** The manifest list the plugin would read in state s; None when its file does not parse. */
  function ManifestOf(s: State, config: map<string, string>): Option<seq<string>> {
    var r := Resolved(s, config);
    LoaderContents(r.files[r.blockLoader.value])
  }

  /** What registering or unregistering returns: no change, a write, or a parse failure. */
  datatype SyncResult = NoChange | Written | ParseError

  /** The two things the plugin does with a package's block. */
  datatype Action = AddBlock(package: Package) | RemoveBlock(package: Package)

  /** The manifest change an action makes for the package's block class c. */
  function ChangeOf(a: Action, c: string): Change {
    match a
    case AddBlock(_) => Add(c)
    case RemoveBlock(_) => Remove(c)
  }

  /** The change an action makes to the manifest list, or None when its package declares no block. */
  function ActionChange(a: Action): Option<Change> {
    match BlockClass(a.package)
    case None => None
    case Some(c) => Some(ChangeOf(a, c))
  }

  /** The result of an action and the state it leaves. */
  datatype Transition = Transition(result: SyncResult, state: State)

  /**
   * Registering or unregistering a package's block in state s. A package
   * without a block class changes nothing, not even the memoised path.
   * Otherwise the path is resolved and the manifest read; a malformed
   * manifest fails; a class already listed (add) or not listed (remove)
   * changes nothing more; otherwise the changed list is written back.
   */
  function Sync(a: Action, config: map<string, string>, s: State): (t: Transition)
    requires Consistent(s)
    ensures Consistent(t.state)
    ensures ActionChange(a).None? ==> t == Transition(NoChange, s)
    ensures ActionChange(a).Some? ==> t.state.blockLoader == Some(LoaderPath(s, config))
    ensures ActionChange(a).Some? && ManifestOf(s, config).None? ==>
              t == Transition(ParseError, Resolved(s, config))
    ensures ActionChange(a).Some? && ManifestOf(s, config).Some? ==>
              && ManifestOf(t.state, config) == Some(Applied(ManifestOf(s, config).value, ActionChange(a).value))
              && (t.result == Written <==> Edit(ManifestOf(s, config).value, ActionChange(a).value).Some?)
              && (t.result == NoChange <==> Edit(ManifestOf(s, config).value, ActionChange(a).value).None?)
    ensures t.state.files.Keys == s.files.Keys + (if ActionChange(a).Some? then {LoaderPath(s, config)} else {})
    ensures forall f :: f in s.files && f != LoaderPath(s, config) ==> t.state.files[f] == s.files[f]
  {
    match ActionChange(a)
    case None => Transition(NoChange, s)
    case Some(ch) =>
      var r := Resolved(s, config);
      var path := r.blockLoader.value;
      match LoaderContents(r.files[path])
      case None => Transition(ParseError, r)
      case Some(l) =>
        match Edit(l, ch)
        case None => Transition(NoChange, r)
        case Some(l') => Transition(Written, State(Some(path), r.files[path := Dump(l')]))
  }

  /**
   * The five Composer package events the plugin handles. Composer also
   * dispatches pre-package-uninstall, to which the plugin does not subscribe.
   */
  datatype ScriptEvent = PrePackageInstall | PrePackageUpdate | PostPackageInstall | PostPackageUpdate | PostPackageUninstall
  {
    /** The event's name as Composer dispatches it. */
    function Name(): string {
      match this
      case PrePackageInstall => "pre-package-install"
      case PrePackageUpdate => "pre-package-update"
      case PostPackageInstall => "post-package-install"
      case PostPackageUpdate => "post-package-update"
      case PostPackageUninstall => "post-package-uninstall"
    }
  }

  /** The plugin's event handlers. */
  datatype Handler = OnPrePackageInstall | OnPrePackageUpdate | OnPostPackageInstall | OnPostPackageUpdate | OnPostPackageUninstall

  /**
   * The plugin's subscriptions, keyed by event name: exactly the names of the
   * five handled events, each mapped to its own handler.
   */
  function SubscribedEvents(): (m: map<string, Handler>)
    ensures forall e: ScriptEvent :: e.Name() in m
    ensures forall name :: name in m ==> exists e: ScriptEvent :: e.Name() == name
    ensures forall e: ScriptEvent, e': ScriptEvent :: e != e' ==> m[e.Name()] != m[e'.Name()]
  {
    map[PrePackageInstall.Name() := OnPrePackageInstall,
        PrePackageUpdate.Name() := OnPrePackageUpdate,
        PostPackageInstall.Name() := OnPostPackageInstall,
        PostPackageUpdate.Name() := OnPostPackageUpdate,
        PostPackageUninstall.Name() := OnPostPackageUninstall]
  }

  /** Composer's pre-package-uninstall event is not subscribed. */
  lemma PreUninstallNotSubscribed()
    ensures "pre-package-uninstall" !in SubscribedEvents()
  {
    forall e: ScriptEvent ensures e.Name() != "pre-package-uninstall" {
      var n := "pre-package-uninstall";
      assert e.Name()[1] != n[1] || e.Name()[12] != n[12] || e.Name()[13] != n[13];
    }
  }

  /** The operation an event reports: an install, an update from one package to another, or an uninstall. */
  datatype Operation = Install(package: Package) | Update(initial: Package, target: Package) | Uninstall(package: Package)

  /** Whether a handler can be given an operation: the kind Composer pairs with the handler's event. */
  predicate Accepts(h: Handler, op: Operation) {
    match h
    case OnPrePackageInstall => op.Install?
    case OnPostPackageInstall => op.Install?
    case OnPrePackageUpdate => op.Update?
    case OnPostPackageUpdate => op.Update?
    case OnPostPackageUninstall => op.Uninstall?
  }

  /** What a handler does with the operation it is given. */
  function Route(h: Handler, op: Operation): (a: Action)
    requires Accepts(h, op)
    ensures a.AddBlock? <==> h == OnPostPackageInstall || h == OnPostPackageUpdate
  {
    match h
    case OnPrePackageInstall => RemoveBlock(op.package)
    case OnPrePackageUpdate => RemoveBlock(op.initial)
    case OnPostPackageInstall => AddBlock(op.package)
    case OnPostPackageUpdate => AddBlock(op.target)
    case OnPostPackageUninstall => RemoveBlock(op.package)
  }

  /** A package event as Composer dispatches it: which event, and the operation it reports. */
  datatype PackageEvent = PackageEvent(event: ScriptEvent, operation: Operation)

  /** The event carries the kind of operation its subscribed handler reads. */
  predicate WellFormed(e: PackageEvent) {
    Accepts(SubscribedEvents()[e.event.Name()], e.operation)
  }

  /** The action the plugin takes on a dispatched event. */
  function Dispatch(e: PackageEvent): (a: Action)
    requires WellFormed(e)
    ensures e.event.PrePackageInstall? || e.event.PostPackageUninstall? ==> a == RemoveBlock(e.operation.package)
    ensures e.event.PrePackageUpdate? ==> a == RemoveBlock(e.operation.initial)
    ensures e.event.PostPackageInstall? ==> a == AddBlock(e.operation.package)
    ensures e.event.PostPackageUpdate? ==> a == AddBlock(e.operation.target)
  {
    Route(SubscribedEvents()[e.event.Name()], e.operation)
  }
}
