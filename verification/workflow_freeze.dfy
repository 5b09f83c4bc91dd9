/**
 * Freezing a workflow state to a file and thawing it back. The file system is a map from
 * path to the state document stored there; the clock reading is a parameter.
 */
module WorkflowFreeze {
  import opened Wrappers
  import opened WorkflowTypes

  /** The files written so far, each holding one state document. */
  type Files = map<string, State>

  /** The document `freezeState` writes: a copy of the state stamped with the freeze time. */
  function Stamped(state: State, now: string): (r: State)
    ensures r.workflowName == state.workflowName && r.currentStep == state.currentStep
    ensures r.status == state.status && r.context == state.context
    ensures r.frozenAt == Some(now)
  {
    state.(frozenAt := Some(now))
  }

  /** `freezeState(state, path)`: the file at `path` is replaced by the stamped copy. */
  function Freeze(files: Files, state: State, path: string, now: string): (r: Files)
    ensures path in r && r[path] == Stamped(state, now)
    ensures forall p :: p != path ==> (p in r <==> p in files)
    ensures forall p :: p != path && p in files ==> r[p] == files[p]
  {
    files[path := Stamped(state, now)]
  }

  /** The message `readFileSync` fails with when no file exists at the path. */
  function MissingFileMessage(path: string): (r: string)
    ensures |r| > |path| + 1
    ensures r[|r| - |path| - 1..|r| - 1] == path && r[|r| - 1] == '\''
  {
    "ENOENT: no such file or directory, open '" + path + "'"
  }

  /** The message names the path: two paths give the same message only if they are the same path. */
  lemma MissingFileMessageNamesPath(p: string, q: string)
    requires MissingFileMessage(p) == MissingFileMessage(q)
    ensures p == q
  {
    var prefix := "ENOENT: no such file or directory, open '";
    assert |p| == |q|;
    assert p == MissingFileMessage(p)[|prefix|..|prefix| + |p|];
    assert q == MissingFileMessage(q)[|prefix|..|prefix| + |q|];
  }

  /** `thawState(path)`: the stored document, or the read error for a path never written. */
  function Thaw(files: Files, path: string): (r: Result<State>)
    ensures r.Ok? <==> path in files
    ensures r.Ok? ==> r.value == files[path]
    ensures r.Err? ==> r.message == MissingFileMessage(path)
  {
    if path in files then Ok(files[path]) else Err(MissingFileMessage(path))
  }

  /** `hasFrozenState(path)`. */
  predicate HasFrozen(files: Files, path: string)
  {
    path in files
  }

  /** Thawing a just-frozen path gives back the state's fields unchanged, stamped with the freeze time. */
  lemma ThawAfterFreeze(files: Files, state: State, path: string, now: string)
    ensures var r := Thaw(Freeze(files, state, path, now), path);
      r.Ok? && r.value.workflowName == state.workflowName &&
      r.value.currentStep == state.currentStep && r.value.status == state.status &&
      r.value.context == state.context && r.value.frozenAt == Some(now)
  {
  }

  /** A path reads as frozen after a freeze to it, and a path never written does not. */
  lemma HasFrozenAfterFreeze(files: Files, state: State, path: string, now: string, other: string)
    requires other != path && !HasFrozen(files, other)
    ensures HasFrozen(Freeze(files, state, path, now), path)
    ensures !HasFrozen(Freeze(files, state, path, now), other)
  {
  }

  /** The last freeze to a path wins: the earlier document is gone entirely. */
  lemma LastFreezeWins(files: Files, first: State, second: State, path: string, t1: string, t2: string)
    ensures Freeze(Freeze(files, first, path, t1), second, path, t2) == Freeze(files, second, path, t2)
  {
  }

  /** The file system: `writeFileSync` replaces a file, `readFileSync`/`existsSync` read one. */
  class FileStore {
    var files: Files

    constructor ()
      ensures files == map[]
    {
      files := map[];
    }

    method FreezeState(state: State, path: string, now: string)
      modifies this
      ensures files == Freeze(old(files), state, path, now)
    {
      files := files[path := Stamped(state, now)];
    }

    method ThawState(path: string) returns (r: Result<State>)
      ensures r == Thaw(files, path)
    {
      if path in files {
        r := Ok(files[path]);
      } else {
        r := Err(MissingFileMessage(path));
      }
    }

    method HasFrozenState(path: string) returns (r: bool)
      ensures r <==> HasFrozen(files, path)
    {
      r := path in files;
    }
  }
}
