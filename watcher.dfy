/**
 * The workspace watcher: one flag recording whether a Solidity file was saved,
 * created or renamed into place since the last build, cleared only by `reset`.
 */
module Watcher {
  import opened Strings

  /** An editor event the watcher listens to, or a call to `reset`. */
  datatype Event =
    | Saved(languageId: string)
    | Created(paths: seq<string>)
    | Renamed(renames: seq<(string, string)>)  // (old path, new path)
    | Reset

  predicate IsSolidityPath(path: string) {
    EndsWith(path, ".sol")
  }

  /** The event touches a Solidity file: the rule that sets the flag. */
  predicate Touches(e: Event) {
    match e
    case Saved(languageId) => languageId == "solidity"
    case Created(paths) => exists i :: 0 <= i < |paths| && IsSolidityPath(paths[i])
    case Renamed(renames) => exists i :: 0 <= i < |renames| && IsSolidityPath(renames[i].1)
    case Reset => false
  }

  /** The flag after one event. */
  function Apply(flag: bool, e: Event): bool {
    if e.Reset? then false else flag || Touches(e)
  }

  /** The flag after a sequence of events. */
  function Replay(flag: bool, events: seq<Event>): bool {
    if events == [] then flag else Apply(Replay(flag, events[..|events| - 1]), events[|events| - 1])
  }

  class WorkspaceWatcher {
    var changed: bool

    /** A watcher starts without changes unless told otherwise. */
    constructor (hasChanges: bool := false)
      ensures changed == hasChanges
    {
      changed := hasChanges;
    }

    /** A saved document counts when its language is Solidity. */
    method OnDidSaveTextDocument(languageId: string)
      modifies this
      ensures changed == Apply(old(changed), Saved(languageId))
      ensures changed == (old(changed) || languageId == "solidity")
    {
      if languageId == "solidity" {
        changed := true;
      }
    }

    /** Created files count when one of them is a `.sol` file. */
    method OnDidCreateFiles(paths: seq<string>)
      modifies this
      ensures changed == Apply(old(changed), Created(paths))
    {
      if exists i :: 0 <= i < |paths| && IsSolidityPath(paths[i]) {
        changed := true;
      }
    }

    /** Renames count when one of them ends at a `.sol` path; where they came from does not matter. */
    method OnDidRenameFiles(renames: seq<(string, string)>)
      modifies this
      ensures changed == Apply(old(changed), Renamed(renames))
    {
      if exists i :: 0 <= i < |renames| && IsSolidityPath(renames[i].1) {
        changed := true;
      }
    }

    /** Reading the flag changes nothing. */
    method HasChanges() returns (r: bool)
      ensures r == changed
    {
      r := changed;
    }

    method Reset()
      modifies this
      ensures !changed
      ensures changed == Apply(old(changed), Event.Reset)
    {
      changed := false;
    }
  }

  /** No event but `reset` ever clears the flag. */
  lemma {:induction false} FlagMonotoneBetweenResets(flag: bool, events: seq<Event>)
    requires forall i :: 0 <= i < |events| ==> !events[i].Reset?
    ensures flag ==> Replay(flag, events)
  {
    if events != [] {
      FlagMonotoneBetweenResets(flag, events[..|events| - 1]);
    }
  }

  /**
   * From a cleared flag, the flag is set after a sequence of events exactly
   * when some event touched a Solidity file and no `reset` came after it.
   */
  lemma {:induction false} FlagMeansUnbuiltChange(events: seq<Event>)
    ensures Replay(false, events) <==>
      exists i :: 0 <= i < |events| && Touches(events[i]) &&
        forall j :: i < j < |events| ==> !events[j].Reset?
  {
    if events != [] {
      var n := |events|;
      var init := events[..n - 1];
      FlagMeansUnbuiltChange(init);
      if Replay(false, events) && !Touches(events[n - 1]) {
        var i :| 0 <= i < |init| && Touches(init[i]) && forall j :: i < j < |init| ==> !init[j].Reset?;
        assert events[i] == init[i];
      }
      if !Replay(false, events) {
        forall i | 0 <= i < n && Touches(events[i])
          ensures exists j :: i < j < n && events[j].Reset?
        {
          if !events[n - 1].Reset? {
            assert i < n - 1 && init[i] == events[i];
            var j :| i < j < |init| && init[j].Reset?;
            assert events[j] == init[j];
          }
        }
      }
    }
  }

  /** A `.sol` file renamed away (to another extension) does not set the flag. */
  lemma RenameAwayIgnored(oldPath: string, newPath: string)
    requires IsSolidityPath(oldPath) && !IsSolidityPath(newPath)
    ensures Apply(false, Renamed([(oldPath, newPath)])) == false
  {
  }
}
