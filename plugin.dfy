/**
 * The plugin object itself. Its fields are the configuration handed over on
 * activation, the memoised manifest path and the files it reads and writes;
 * each method is proved to have the effect the pure model in Bldr gives it.
 */
module BldrPluginClass {
  import opened Wrappers
  import opened Manifest
  import opened Bldr

  class BldrPlugin {
    /** Composer's configuration, as a map from keys to string values; None until activation. */
    var config: Option<map<string, string>>
    /** The memoised manifest path; None until first looked up. */
    var blockLoader: Option<string>
    /** The files on disk, by path, as parsed documents. */
    var files: map<string, Document>

    /** The state the pure model speaks about. */
    function Snapshot(): State
      reads this
    {
      State(blockLoader, files)
    }

    ghost predicate Valid()
      reads this
    {
      Consistent(Snapshot())
    }

    /**
     * The configuration the path lookup reads. Before activation there is
     * none; the lookup is then only reachable with a memoised path, which
     * never reads it.
     */
    function HostConfig(): map<string, string>
      reads this
    {
      config.GetOr(map[])
    }

    /** The manifest path can be looked up: it is memoised, or the plugin has been activated. */
    predicate CanResolve()
      reads this
    {
      blockLoader.Some? || config.Some?
    }

    /** A fresh plugin over the given files: nothing memoised, no configuration yet. */
    constructor (disk: map<string, Document>)
      ensures Valid()
      ensures config == None && blockLoader == None && files == disk
    {
      config := None;
      blockLoader := None;
      files := disk;
    }

    /** Activation hands over Composer's configuration; nothing else changes. */
    method Activate(composerConfig: map<string, string>)
      modifies this`config
      ensures config == Some(composerConfig)
    {
      config := Some(composerConfig);
    }

    /**
     * The manifest path: the memoised one if set, without consulting the
     * configuration or the disk; otherwise the configured one (or the
     * default), which is memoised and whose file is created empty if missing.
     */
    method GetBlockLoader() returns (path: string)
      requires Valid() && CanResolve()
      modifies this`blockLoader, this`files
      ensures Valid()
      ensures old(blockLoader).Some? ==> path == old(blockLoader).value && files == old(files)
      ensures old(blockLoader).None? ==> path == ConfiguredPath(config.value) && files == Touch(old(files), path)
      ensures blockLoader == Some(path) && path in files
      ensures Snapshot() == Resolved(old(Snapshot()), HostConfig())
    {
      if blockLoader.Some? {
        return blockLoader.value;
      }
      var host := config.value;
      path := if BlockLoaderKey in host then host[BlockLoaderKey] else DefaultBlockLoader;
      blockLoader := Some(path);
      if path !in files {
        files := files[path := Null];
      }
    }

    /** The manifest list, with an empty document read as the empty list; None when it does not parse. */
    method GetLoaderContents() returns (loader: Option<seq<string>>)
      requires Valid() && CanResolve()
      modifies this`blockLoader, this`files
      ensures Valid()
      ensures Snapshot() == Resolved(old(Snapshot()), HostConfig())
      ensures loader == ManifestOf(old(Snapshot()), HostConfig())
    {
      var path := GetBlockLoader();
      var doc := files[path];
      if doc.Malformed? {
        return None;
      }
      var parsed := if doc.List? then doc.entries else [];
      loader := Some(parsed);
    }

    /**
     * Registers the package's block class: no change without a class or when
     * it is already listed, otherwise the class is appended and the list written.
     */
    method AddBlockToLoader(package: Package) returns (r: SyncResult)
      requires Valid() && (BlockClass(package).Some? ==> CanResolve())
      modifies this`blockLoader, this`files
      ensures Valid()
      ensures Transition(r, Snapshot()) == Sync(AddBlock(package), HostConfig(), old(Snapshot()))
    {
      var cls := BlockClass(package);
      if cls.None? {
        return NoChange;
      }
      var contents := GetLoaderContents();
      if contents.None? {
        return ParseError;
      }
      var loader := contents.value;
      if cls.value in loader {
        return NoChange;
      }
      loader := loader + [cls.value];
      var path := GetBlockLoader();
      files := files[path := Dump(loader)];
      r := Written;
    }

    /**
     * Unregisters the package's block class: no change without a class or when
     * it is not listed, otherwise its first occurrence is deleted and the list written.
     */
    method RemoveBlockFromLoader(package: Package) returns (r: SyncResult)
      requires Valid() && (BlockClass(package).Some? ==> CanResolve())
      modifies this`blockLoader, this`files
      ensures Valid()
      ensures Transition(r, Snapshot()) == Sync(RemoveBlock(package), HostConfig(), old(Snapshot()))
    {
      var cls := BlockClass(package);
      if cls.None? {
        return NoChange;
      }
      var contents := GetLoaderContents();
      if contents.None? {
        return ParseError;
      }
      var loader := contents.value;
      if cls.value !in loader {
        return NoChange;
      }
      var i := FirstIndex(loader, cls.value).value;
      loader := loader[..i] + loader[i + 1..];
      var path := GetBlockLoader();
      files := files[path := Dump(loader)];
      r := Written;
    }

    /** Before an install, the package's block is unregistered. */
    method OnPrePackageInstall(op: Operation) returns (r: SyncResult)
      requires Valid() && op.Install? && (BlockClass(op.package).Some? ==> CanResolve())
      modifies this`blockLoader, this`files
      ensures Valid()
      ensures Transition(r, Snapshot()) == Sync(Route(Handler.OnPrePackageInstall, op), HostConfig(), old(Snapshot()))
    {
      r := RemoveBlockFromLoader(op.package);
    }

    /** Before an update, the initial package's block is unregistered. */
    method OnPrePackageUpdate(op: Operation) returns (r: SyncResult)
      requires Valid() && op.Update? && (BlockClass(op.initial).Some? ==> CanResolve())
      modifies this`blockLoader, this`files
      ensures Valid()
      ensures Transition(r, Snapshot()) == Sync(Route(Handler.OnPrePackageUpdate, op), HostConfig(), old(Snapshot()))
    {
      r := RemoveBlockFromLoader(op.initial);
    }

    /** After an install, the package's block is registered. */
    method OnPostPackageInstall(op: Operation) returns (r: SyncResult)
      requires Valid() && op.Install? && (BlockClass(op.package).Some? ==> CanResolve())
      modifies this`blockLoader, this`files
      ensures Valid()
      ensures Transition(r, Snapshot()) == Sync(Route(Handler.OnPostPackageInstall, op), HostConfig(), old(Snapshot()))
    {
      r := AddBlockToLoader(op.package);
    }

    /** After an update, the target package's block is registered. */
    method OnPostPackageUpdate(op: Operation) returns (r: SyncResult)
      requires Valid() && op.Update? && (BlockClass(op.target).Some? ==> CanResolve())
      modifies this`blockLoader, this`files
      ensures Valid()
      ensures Transition(r, Snapshot()) == Sync(Route(Handler.OnPostPackageUpdate, op), HostConfig(), old(Snapshot()))
    {
      r := AddBlockToLoader(op.target);
    }

    /** After an uninstall, the package's block is unregistered. */
    method OnPostPackageUninstall(op: Operation) returns (r: SyncResult)
      requires Valid() && op.Uninstall? && (BlockClass(op.package).Some? ==> CanResolve())
      modifies this`blockLoader, this`files
      ensures Valid()
      ensures Transition(r, Snapshot()) == Sync(Route(Handler.OnPostPackageUninstall, op), HostConfig(), old(Snapshot()))
    {
      r := RemoveBlockFromLoader(op.package);
    }
  }
}
