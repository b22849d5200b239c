/**
 * Properties of the plugin over whole package lifecycles: series of events
 * as Composer dispatches them, one at a time and in order.
 */
module Lifecycle {
  import opened Wrappers
  import opened Manifest
  import opened Bldr

  /** Every event of the series carries the operation its handler reads. */
  predicate AllWellFormed(events: seq<PackageEvent>) {
    forall i :: 0 <= i < |events| ==> WellFormed(events[i])
  }

  /** The plugin's state after handling a series of events in order. */
  function Replay(events: seq<PackageEvent>, config: map<string, string>, s: State): (r: State)
    requires Consistent(s) && AllWellFormed(events)
    ensures Consistent(r)
    decreases |events|
  {
    if events == [] then s
    else Replay(events[1..], config, Sync(Dispatch(events[0]), config, s).state)
  }

  /** The manifest changes a series of events asks for, skipping packages without a block class. */
  function Changes(events: seq<PackageEvent>): seq<Change>
    requires AllWellFormed(events)
    decreases |events|
  {
    if events == [] then []
    else
      match ActionChange(Dispatch(events[0]))
      case None => Changes(events[1..])
      case Some(ch) => [ch] + Changes(events[1..])
  }

  /**
   * Handling a series of events does to a readable manifest exactly what the
   * list transforms do: each event with a block class registers or
   * unregisters it, every other event changes nothing.
   */
  lemma {:induction false} ReplayIsAppliedAll(events: seq<PackageEvent>, config: map<string, string>, s: State)
    requires Consistent(s) && AllWellFormed(events) && ManifestOf(s, config).Some?
    ensures ManifestOf(Replay(events, config, s), config) == Some(AppliedAll(ManifestOf(s, config).value, Changes(events)))
    decreases |events|
  {
    if events != [] {
      var l := ManifestOf(s, config).value;
      var t := Sync(Dispatch(events[0]), config, s);
      assert AllWellFormed(events[1..]) by {
        forall i | 0 <= i < |events[1..]| ensures WellFormed(events[1..][i]) {
          assert events[1..][i] == events[i + 1];
        }
      }
      ReplayIsAppliedAll(events[1..], config, t.state);
      match ActionChange(Dispatch(events[0]))
      case None =>
      case Some(ch) =>
        AppliedAllCons(l, ch, Changes(events[1..]));
    }
  }

  /** No series of events makes a readable manifest list a class twice. */
  lemma ReplayKeepsNoDuplicates(events: seq<PackageEvent>, config: map<string, string>, s: State)
    requires Consistent(s) && AllWellFormed(events)
    requires ManifestOf(s, config).Some? && NoDuplicates(ManifestOf(s, config).value)
    ensures ManifestOf(Replay(events, config, s), config).Some?
    ensures NoDuplicates(ManifestOf(Replay(events, config, s), config).value)
  {
    ReplayIsAppliedAll(events, config, s);
    AppliedAllKeepsNoDuplicates(ManifestOf(s, config).value, Changes(events));
  }

  /** Once memoised, the manifest path stays the same whatever events follow. */
  lemma {:induction false} ReplayKeepsPath(events: seq<PackageEvent>, config: map<string, string>, s: State)
    requires Consistent(s) && AllWellFormed(events) && s.blockLoader.Some?
    ensures Replay(events, config, s).blockLoader == s.blockLoader
    decreases |events|
  {
    if events != [] {
      var t := Sync(Dispatch(events[0]), config, s);
      assert AllWellFormed(events[1..]) by {
        forall i | 0 <= i < |events[1..]| ensures WellFormed(events[1..][i]) {
          assert events[1..][i] == events[i + 1];
        }
      }
      ReplayKeepsPath(events[1..], config, t.state);
    }
  }

  /**
   * Once the memoised manifest is malformed, every later event fails to parse
   * it or has no block to handle, so the state never changes again: handling
   * the rest of the series ends where aborting at the parse error would.
   */
  lemma {:induction false} ReplayAfterParseErrorChangesNothing(events: seq<PackageEvent>, config: map<string, string>, s: State)
    requires Consistent(s) && AllWellFormed(events) && s.blockLoader.Some? && ManifestOf(s, config).None?
    ensures Replay(events, config, s) == s
    decreases |events|
  {
    if events != [] {
      var t := Sync(Dispatch(events[0]), config, s);
      assert t.state == s;
      assert AllWellFormed(events[1..]) by {
        forall i | 0 <= i < |events[1..]| ensures WellFormed(events[1..][i]) {
          assert events[1..][i] == events[i + 1];
        }
      }
      ReplayAfterParseErrorChangesNothing(events[1..], config, s);
    }
  }

  /** Once the path is memoised, the configuration no longer affects anything. */
  lemma MemoisedPathIgnoresConfig(a: Action, config: map<string, string>, other: map<string, string>, s: State)
    requires Consistent(s) && s.blockLoader.Some?
    ensures Sync(a, config, s) == Sync(a, other, s)
  {
  }

  /**
   * Installing a package whose block is not listed and then uninstalling it
   * leaves the manifest as it was.
   */
  lemma InstallThenUninstall(p: Package, config: map<string, string>, s: State)
    requires Consistent(s) && ManifestOf(s, config).Some?
    requires BlockClass(p).Some? && BlockClass(p).value !in ManifestOf(s, config).value
    ensures
      var installed := Sync(Dispatch(PackageEvent(PostPackageInstall, Install(p))), config, s).state;
      var uninstalled := Sync(Dispatch(PackageEvent(PostPackageUninstall, Uninstall(p))), config, installed).state;
      ManifestOf(uninstalled, config) == ManifestOf(s, config)
  {
    RegisterThenUnregister(ManifestOf(s, config).value, BlockClass(p).value);
  }

  /**
   * Updating a package whose block class stays the same moves that class to
   * the end of a manifest that keeps the invariant, where it is listed once.
   */
  lemma UpdateMovesBlockToEnd(initial: Package, target: Package, config: map<string, string>, s: State)
    requires Consistent(s) && ManifestOf(s, config).Some? && NoDuplicates(ManifestOf(s, config).value)
    requires BlockClass(initial).Some? && BlockClass(target) == BlockClass(initial)
    ensures
      var c := BlockClass(initial).value;
      var l := ManifestOf(s, config).value;
      var before := Sync(Dispatch(PackageEvent(PrePackageUpdate, Update(initial, target))), config, s).state;
      var after := Sync(Dispatch(PackageEvent(PostPackageUpdate, Update(initial, target))), config, before).state;
      && ManifestOf(after, config) == Some(Applied(l, Remove(c)) + [c])
      && NoDuplicates(ManifestOf(after, config).value)
  {
    var c := BlockClass(initial).value;
    var l := ManifestOf(s, config).value;
    UnregisterRemovesAll(l, c);
    UnregisterKeepsNoDuplicates(l, c);
    RegisterKeepsNoDuplicates(Applied(l, Remove(c)), c);
  }

  /**
   * With no manifest file at the configured path, registering a block
   * creates the file and writes a manifest listing exactly that block.
   */
  lemma FirstRegistrationCreatesManifest(p: Package, config: map<string, string>, files: map<string, Document>)
    requires BlockClass(p).Some? && ConfiguredPath(config) !in files
    ensures
      var path := ConfiguredPath(config);
      Sync(AddBlock(p), config, State(None, files))
        == Transition(Written, State(Some(path), files[path := List([BlockClass(p).value])]))
  {
  }
}
