/** Swapping a directory for a new one by renames, when the process may stop, or a file
    operation may fail, at any point; and the recovery that runs at the next start. */
module DirectorySwap {
  import opened Options

  /** A directory, whole in some version, or with part of its files already removed. */
  datatype Dir = Absent | Whole(version: nat) | Partial

  /** What becomes of one file operation. */
  datatype Fate = Goes | Fails | FailsPartway | StopsBefore | StopsPartway | StopsAfter

  datatype Answer = Ok | Error | Stopped

  datatype State = State(target: Dir, rollback: Dir, staged: Dir, legacy: map<string, Dir>)

  // ---- What a state amounts to ----

  /** The version that recovery will put in place: that of the target, else of the rollback
      copy, else of the only backup that an earlier release left behind. */
  function Effective(s: State): Option<nat> {
    if s.target.Whole? then Some(s.target.version)
    else if s.rollback.Whole? then Some(s.rollback.version)
    else LegacyVersion(s.legacy)
  }

  function LegacyVersion(legacy: map<string, Dir>): Option<nat> {
    if |legacy| != 1 then None else
      assert |legacy.Keys| == 1;
      OneName(legacy.Keys);
      var name :| name in legacy;
      if legacy[name].Whole? then Some(legacy[name].version) else None
  }

  lemma OneName(names: set<string>)
    requires |names| == 1
    ensures exists n :: n in names
    ensures forall n, m :: n in names && m in names ==> n == m
  {
    var n :| n in names;
    assert |names - {n}| == 0;
    assert names == names - {n} + {n};
  }

  /** The target is never partial, and only what is no longer needed may be. */
  predicate Sound(s: State) {
    && !s.target.Partial?
    && (s.rollback.Partial? ==> s.target.Whole?)
    && (forall n :: n in s.legacy ==> !s.legacy[n].Absent?)
    && (s.target.Absent? && s.rollback.Absent? ==> forall n :: n in s.legacy ==> s.legacy[n].Whole?)
  }

  /** The effective version is in place, and no rollback copy is left. */
  predicate Recovered(s: State) {
    s.rollback.Absent? && s.target == InPlace(Effective(s))
  }

  function InPlace(version: Option<nat>): Dir {
    if version.Some? then Whole(version.value) else Absent
  }

  predicate AllGo(fates: seq<Fate>) {
    forall i :: 0 <= i < |fates| ==> fates[i].Goes?
  }

  predicate Hitch(fate: Fate) {
    fate.Fails? || fate.FailsPartway?
  }

  /** The process does not stop, and at most one operation fails. */
  predicate OneHitch(fates: seq<Fate>) {
    && (forall i :: 0 <= i < |fates| ==> fates[i].Goes? || Hitch(fates[i]))
    && (forall i, j :: 0 <= i < j < |fates| ==> fates[i].Goes? || fates[j].Goes?)
  }

  datatype Place = Target | Rollback | Staged | Legacy(name: string)

  function At(s: State, p: Place): Dir {
    match p
    case Target => s.target
    case Rollback => s.rollback
    case Staged => s.staged
    case Legacy(name) => if name in s.legacy then s.legacy[name] else Absent
  }

  function Put(s: State, p: Place, d: Dir): State {
    match p
    case Target => s.(target := d)
    case Rollback => s.(rollback := d)
    case Staged => s.(staged := d)
    case Legacy(name) => s.(legacy := if d.Absent? then s.legacy - {name} else s.legacy[name := d])
  }

  predicate CanMove(s: State, from: Place, to: Place) {
    !At(s, from).Absent? && At(s, to).Absent?
  }

  function Moved(s: State, from: Place, to: Place): State {
    Put(Put(s, to, At(s, from)), from, Absent)
  }

  class FileSystem {
    var state: State
    var fates: seq<Fate>

    constructor (initial: State, script: seq<Fate>)
      ensures state == initial && fates == script
    {
      state, fates := initial, script;
    }

    /** The fate of the next operation; those not foretold go well. */
    method NextFate() returns (fate: Fate)
      modifies this`fates
      ensures AllGo(old(fates)) ==> fate.Goes? && AllGo(fates)
      ensures OneHitch(old(fates)) ==>
        (fate.Goes? && OneHitch(fates)) || (Hitch(fate) && AllGo(fates))
    {
      if fates == [] {
        return Goes;
      }
      fate := fates[0];
      fates := fates[1..];
    }

    /** Renaming moves a directory at once or not at all, and not onto another one. */
    method Rename(from: Place, to: Place) returns (answer: Answer)
      requires from != to
      modifies this
      ensures state == old(state) || (CanMove(old(state), from, to) && state == Moved(old(state), from, to))
      ensures answer == Ok ==> CanMove(old(state), from, to) && state == Moved(old(state), from, to)
      ensures answer == Error ==> state == old(state)
      ensures AllGo(old(fates)) ==> AllGo(fates) && answer == if CanMove(old(state), from, to) then Ok else Error
      ensures OneHitch(old(fates)) ==> answer != Stopped && OneHitch(fates)
      ensures OneHitch(old(fates)) && answer == Error ==> AllGo(fates) || !CanMove(old(state), from, to)
    {
      var fate := NextFate();
      if fate.StopsBefore? || fate.StopsPartway? {
        return Stopped;
      }
      if fate.Fails? || fate.FailsPartway? || !CanMove(state, from, to) {
        return Error;
      }
      state := Moved(state, from, to);
      return if fate.StopsAfter? then Stopped else Ok;
    }

    /** Removing a directory with all it contains may leave part of it. */
    method RemoveDirAll(p: Place) returns (answer: Answer)
      requires !At(state, p).Absent?
      modifies this
      ensures state == old(state) || state == Put(old(state), p, Partial) || state == Put(old(state), p, Absent)
      ensures answer == Ok ==> state == Put(old(state), p, Absent)
      ensures answer == Error ==> state != Put(old(state), p, Absent)
      ensures AllGo(old(fates)) ==> AllGo(fates) && answer == Ok
      ensures OneHitch(old(fates)) ==> answer != Stopped && OneHitch(fates) && (answer == Error ==> AllGo(fates))
    {
      var fate := NextFate();
      match fate
      case Goes =>
        state := Put(state, p, Absent);
        return Ok;
      case Fails => return Error;
      case FailsPartway =>
        state := Put(state, p, Partial);
        return Error;
      case StopsBefore => return Stopped;
      case StopsPartway =>
        state := Put(state, p, Partial);
        return Stopped;
      case StopsAfter =>
        state := Put(state, p, Absent);
        return Stopped;
    }

    // ---- The data directory ----

    /** `recover_interrupted_restore`, restartable wherever it stops. */
    method RecoverInterruptedRestore() returns (answer: Answer)
      requires Sound(state) && state.legacy == map[]
      modifies this
      ensures Sound(state) && state.legacy == map[] && state.staged == old(state).staged
      ensures Effective(state) == Effective(old(state))
      ensures answer == Ok ==> Recovered(state)
      ensures AllGo(old(fates)) ==> AllGo(fates) && answer == Ok
    {
      if !state.target.Absent? {
        if !state.rollback.Absent? {
          answer := RemoveDirAll(Rollback);
          return;
        }
        return Ok;
      }
      if !state.rollback.Absent? {
        answer := Rename(Rollback, Target);
        return;
      }
      return Ok;
    }

    /** `replace_data_dir`: wherever it stops, the effective version is the old or the new one.
        An error says that the new version is in place and only the old copy could not be cleaned
        up, or that the new one still waits and the old one is effective; and if nothing else
        failed, everything is as before. */
    method ReplaceDataDir() returns (answer: Answer)
      requires Sound(state) && state.legacy == map[] && state.staged.Whole?
      modifies this
      ensures Sound(state) && state.legacy == map[]
      ensures Effective(state) == Effective(old(state)) || Effective(state) == Some(old(state).staged.version)
      ensures answer == Ok ==> state == State(old(state).staged, Absent, Absent, map[])
      ensures !old(state).rollback.Absent? ==> answer == Error && state == old(state)
      ensures answer == Error ==>
        || (state.target == old(state).staged && state.staged.Absent?)
        || (state.staged == old(state).staged && Effective(state) == Effective(old(state)))
      ensures OneHitch(old(fates)) && answer == Error ==>
        (state.target == old(state).staged && state.staged.Absent?) || state == old(state)
      ensures AllGo(old(fates)) && old(state).rollback.Absent? ==> AllGo(fates) && answer == Ok
    {
      if !state.rollback.Absent? {
        return Error;
      }
      if !state.target.Absent? {
        answer := Rename(Target, Rollback);
        if answer != Ok {
          return;
        }
      }
      answer := Rename(Staged, Target);
      if answer == Stopped {
        return;
      }
      if answer == Error {
        answer := Rename(Rollback, Target);
        return if answer == Stopped then Stopped else Error;
      }
      if !state.rollback.Absent? {
        answer := RemoveDirAll(Rollback);
      }
    }

    // ---- The model directory ----

    /** The part of `recover_model_directory` about the rollback copy. */
    method RecoverBackup() returns (answer: Answer)
      requires Sound(state)
      modifies this
      ensures Sound(state) && state.legacy == old(state).legacy && state.staged == old(state).staged
      ensures Effective(state) == Effective(old(state))
      ensures answer == Ok ==> state.rollback.Absent?
      ensures old(state).target.Whole? ==> state.target == old(state).target
      ensures AllGo(old(fates)) ==> AllGo(fates) && answer == Ok
      ensures OneHitch(old(fates)) ==> answer != Stopped && OneHitch(fates)
    {
      if state.rollback.Absent? {
        return Ok;
      }
      if !state.target.Absent? {
        answer := RemoveDirAll(Rollback);
      } else {
        answer := Rename(Rollback, Target);
      }
    }

    /** The clean-up of earlier backups; what cannot be removed only causes a warning. */
    method RemoveLegacy() returns (stopped: bool)
      requires Sound(state) && state.target.Whole?
      modifies this
      ensures Sound(state) && state.(legacy := old(state).legacy) == old(state)
      ensures AllGo(old(fates)) ==> AllGo(fates) && !stopped && state.legacy == map[]
      ensures OneHitch(old(fates)) ==> OneHitch(fates) && !stopped
    {
      var rest := state.legacy.Keys;
      stopped := false;
      while rest != {} && !stopped
        invariant Sound(state) && state.(legacy := old(state).legacy) == old(state) && rest <= state.legacy.Keys
        invariant AllGo(old(fates)) ==> AllGo(fates) && !stopped && rest == state.legacy.Keys
        invariant OneHitch(old(fates)) ==> OneHitch(fates) && !stopped
      {
        var name :| name in rest;
        var answer := RemoveDirAll(Legacy(name));
        stopped := answer == Stopped;
        rest := rest - {name};
      }
    }

    /** `recover_model_directory`: an earlier backup is only put in place if it is the only one. */
    method RecoverModelDirectory() returns (answer: Answer)
      requires Sound(state)
      modifies this
      ensures Sound(state) && state.staged == old(state).staged
      ensures Effective(state) == Effective(old(state))
      ensures answer == Ok ==> Recovered(state)
      ensures AllGo(old(fates)) ==> AllGo(fates)
      ensures AllGo(old(fates)) ==> (answer == Ok <==> Effective(old(state)).Some? || old(state).legacy == map[])
      ensures AllGo(old(fates)) && answer == Ok ==> state.legacy == map[]
      ensures old(state).target.Whole? ==> state.target == old(state).target
      ensures OneHitch(old(fates)) ==> answer != Stopped && OneHitch(fates)
    {
      answer := RecoverBackup();
      if answer != Ok {
        return;
      }
      if state.target.Absent? {
        if |state.legacy| == 1 {
          OneName(state.legacy.Keys);
          var name :| name in state.legacy;
          answer := Rename(Legacy(name), Target);
          return;
        } else if state.legacy != map[] {
          return Error;
        }
        return Ok;
      }
      var stopped := RemoveLegacy();
      return if stopped then Stopped else Ok;
    }

    /** `install_model_candidate`: when it reports success the candidate is in place; when it
        reports a failure the effective version is the old one and the candidate still waits, and
        if nothing else failed, an old version is in its place; when it stops, either. */
    method InstallModelCandidate() returns (answer: Answer)
      requires Sound(state) && state.staged.Whole?
      modifies this
      ensures Sound(state)
      ensures answer == Ok ==> state.target == old(state).staged
      ensures answer == Error ==> Effective(state) == Effective(old(state)) && state.staged == old(state).staged
      ensures OneHitch(old(fates)) && answer == Error && old(state).target.Whole? ==> state.target == old(state).target
      ensures OneHitch(old(fates)) ==> answer != Stopped
      ensures AllGo(old(fates)) ==> (answer == Ok <==> Effective(old(state)).Some? || old(state).legacy == map[])
      ensures Effective(state) == Effective(old(state)) || Effective(state) == Some(old(state).staged.version)
    {
      answer := RecoverModelDirectory();
      if answer != Ok {
        return;
      }
      var hadDestination := !state.target.Absent?;
      if hadDestination {
        answer := Rename(Target, Rollback);
        if answer != Ok {
          return;
        }
      }
      answer := Rename(Staged, Target);
      if answer == Stopped {
        return;
      }
      if answer == Error {
        if hadDestination {
          answer := Rename(Rollback, Target);
        }
        return if answer == Stopped then Stopped else Error;
      }
      if hadDestination {
        answer := RemoveDirAll(Rollback);
        if answer == Error {
          return Ok;
        }
      }
    }
  }

  /** A swap that may stop anywhere, then recoveries that may each stop anywhere, then one that
      ends well: the target is whole, in its old or its new version, and no rollback copy is left. */
  method SwapAndRecover(fs: FileSystem, attempts: seq<seq<Fate>>) returns (answer: Answer)
    requires Sound(fs.state) && fs.state.legacy == map[] && fs.state.staged.Whole?
    modifies fs
    ensures Sound(fs.state)
    ensures answer == Ok ==> fs.state.rollback.Absent?
    ensures answer == Ok ==> fs.state.target == old(fs.state).staged || fs.state.target == InPlace(Effective(old(fs.state)))
    ensures attempts != [] && AllGo(attempts[|attempts| - 1]) ==> answer == Ok
  {
    answer := fs.ReplaceDataDir();
    var i := 0;
    while i < |attempts|
      invariant 0 <= i <= |attempts| && Sound(fs.state) && fs.state.legacy == map[]
      invariant Effective(fs.state) == Effective(old(fs.state)) || Effective(fs.state) == Some(old(fs.state).staged.version)
      invariant answer == Ok ==> Recovered(fs.state)
      invariant i > 0 && AllGo(attempts[i - 1]) ==> answer == Ok
    {
      fs.fates := attempts[i];
      answer := fs.RecoverInterruptedRestore();
      i := i + 1;
    }
  }

  /** The same for the model directory: the effective version at the end is the one before the
      installation or the candidate's. */
  method InstallAndRecover(fs: FileSystem, attempts: seq<seq<Fate>>) returns (answer: Answer)
    requires Sound(fs.state) && fs.state.staged.Whole?
    modifies fs
    ensures Sound(fs.state)
    ensures attempts != [] && answer == Ok ==> Recovered(fs.state)
    ensures Effective(fs.state) == Effective(old(fs.state)) || Effective(fs.state) == Some(old(fs.state).staged.version)
    ensures attempts != [] && AllGo(attempts[|attempts| - 1]) && Effective(fs.state).Some? ==> answer == Ok
  {
    answer := fs.InstallModelCandidate();
    var i := 0;
    while i < |attempts|
      invariant 0 <= i <= |attempts| && Sound(fs.state)
      invariant Effective(fs.state) == Effective(old(fs.state)) || Effective(fs.state) == Some(old(fs.state).staged.version)
      invariant i > 0 && answer == Ok ==> Recovered(fs.state)
      invariant i > 0 && AllGo(attempts[i - 1]) && Effective(fs.state).Some? ==> answer == Ok
    {
      fs.fates := attempts[i];
      answer := fs.RecoverModelDirectory();
      i := i + 1;
    }
  }
}
