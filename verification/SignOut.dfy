/** Removing both credential files under both leases; a failure with one file does not spare the other. */
module SignOut {
  datatype Path = OAuthFile | DerivedFile

  datatype Failure = NotLocked(path: Path) | NotRemoved(path: Path) | NotUnlocked(path: Path)

  // The calls that fail: taking a lease, removing a file for a reason other than its absence, closing a lease.
  datatype Faults = Faults(lock: set<Path>, remove: set<Path>, unlock: set<Path>)

  class Directory {
    var files: set<Path>
    ghost var leased: seq<Path> // the leases in the order they were taken

    constructor (files: set<Path>)
      ensures this.files == files && leased == []
    {
      this.files, leased := files, [];
    }

    method Remove(named: bool, faults: Faults) returns (failures: set<Failure>)
      requires leased == []
      modifies this
      ensures !named ==> failures == {} && files == old(files) && leased == []
      ensures named && DerivedFile in faults.lock ==> failures == {NotLocked(DerivedFile)} && files == old(files)
      ensures named && DerivedFile !in faults.lock && OAuthFile in faults.lock ==>
                NotLocked(OAuthFile) in failures && files == old(files)
      ensures named && DerivedFile !in faults.lock && OAuthFile !in faults.lock ==>
                && leased == [DerivedFile, OAuthFile]
                && files == old(files) * faults.remove
                && failures == (set p | p in faults.remove :: NotRemoved(p)) + (set p | p in faults.unlock :: NotUnlocked(p))
      ensures named && failures == {} ==> files == {}
    {
      failures := {};
      if !named {
        return;
      }
      if DerivedFile in faults.lock {
        return {NotLocked(DerivedFile)};
      }
      leased := [DerivedFile];
      if OAuthFile in faults.lock {
        failures := {NotLocked(OAuthFile)};
      } else {
        leased := leased + [OAuthFile];
        failures := RemoveEach([OAuthFile, DerivedFile], faults.remove);
        assert forall p: Path :: p in [OAuthFile, DerivedFile] by { EitherFile(); }
        if OAuthFile in faults.unlock {
          failures := failures + {NotUnlocked(OAuthFile)};
        }
      }
      if DerivedFile in faults.unlock {
        failures := failures + {NotUnlocked(DerivedFile)};
      }
      if OAuthFile !in faults.lock {
        forall p | p in faults.unlock ensures NotUnlocked(p) in failures {
          match p
          case OAuthFile =>
          case DerivedFile =>
        }
        assert forall p :: p in faults.remove ==> NotRemoved(p) in failures;
      }
    }

    // Goes on past a file that could not be removed.
    method RemoveEach(paths: seq<Path>, faulty: set<Path>) returns (failures: set<Failure>)
      modifies `files
      ensures files == set p | p in old(files) && (p !in paths || p in faulty)
      ensures failures == set p | p in faulty && p in paths :: NotRemoved(p)
    {
      failures := {};
      for i := 0 to |paths|
        invariant files == set p | p in old(files) && (p !in paths[..i] || p in faulty)
        invariant failures == set p | p in faulty && p in paths[..i] :: NotRemoved(p)
      {
        if paths[i] in faulty {
          failures := failures + {NotRemoved(paths[i])};
        } else {
          files := files - {paths[i]};
        }
        assert paths[..i + 1] == paths[..i] + [paths[i]];
      }
      assert paths[..|paths|] == paths;
    }
  }

  lemma EitherFile()
    ensures forall p: Path :: p in [OAuthFile, DerivedFile]
  {
    forall p: Path ensures p in [OAuthFile, DerivedFile] {
      match p
      case OAuthFile => assert [OAuthFile, DerivedFile][0] == p;
      case DerivedFile => assert [OAuthFile, DerivedFile][1] == p;
    }
  }
}
