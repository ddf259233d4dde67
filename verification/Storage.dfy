/** `ExtractingStorage`, and how its critical sections are the steps of the protocol. */
module Storage {
  import opened Wrappers
  import opened Pool
  import opened Protocol

  /** How one pass through the critical section of `extract` ends. */
  datatype Extraction = Missing | MustWait | Taken(value: Launcher)

  /** The outcome of the critical section of `extract`, and the lists after it. */
  function Extracted(lists: Lists, kind: Language): (Extraction, Lists) {
    if kind !in lists then (Missing, lists)
    else if lists[kind] == [] then (MustWait, lists)
    else (Taken(Back(lists, kind)), Popped(lists, kind))
  }

  class ExtractingStorage {
    var storage: Lists

    constructor ()
      ensures storage == map[]
    {
      storage := map[];
    }

    method Contains(key: Language) returns (found: bool)
      ensures found <==> key in storage
    {
      found := key in storage;
    }

    /** `extract` from taking the mutex, at first or on waking up, to blocking or returning. The header calls the
        storage a FIFO, but the last value added to a list is the first one taken. */
    method ExtractOnce(kind: Language) returns (e: Extraction)
      modifies this
      ensures (e, storage) == Extracted(old(storage), kind)
    {
      if kind !in storage {
        return Missing;
      }
      var values := storage[kind];
      if values == [] {
        return MustWait;
      }
      e := Taken(values[|values| - 1]);
      storage := storage[kind := values[..|values| - 1]];
    }

    /** `addValue` up to the release of the mutex; false where `storage.at` throws. */
    method AddValue(key: Language, value: Launcher) returns (added: bool)
      modifies this
      ensures added <==> key in old(storage)
      ensures storage == if added then old(storage)[key := old(storage)[key] + [value]] else old(storage)
    {
      added := key in storage;
      if added {
        storage := storage[key := storage[key] + [value]];
      }
    }

    method AddValues(key: Language, values: seq<Launcher>)
      modifies this
      ensures storage == AddedAll(old(storage), key, values)
    {
      for i := 0 to |values|
        invariant storage == AddedAll(old(storage), key, values[..i])
      {
        AddedOneMore(old(storage), key, values[..i], values[i]);
        assert values[..i + 1] == values[..i] + [values[i]];
        storage := storage[key := (if key in storage then storage[key] else []) + [values[i]]];
      }
      assert values[..|values|] == values;
    }
  }

  /** The step `Test` of a request is the critical section of `extract`. */
  lemma TestIsExtract(s: State, r: nat)
    requires Enabled(s, Test(r))
    ensures
      var q, t := s.requests[r], Apply(s, Test(r));
      var (e, lists) := Extracted(s.lists, q.lang);
      && t.lists == lists && r < |t.requests|
      && t.requests[r].phase == (match e case Missing => Threw case MustWait => Parking case Taken(_) => Leased)
      && (e.Taken? ==> t.requests[r].lease == Some(e.value) && t.holder == None)
      && (e.MustWait? ==> t.holder == s.holder)
  {
  }

  /** The step `Push` of the job thread is the critical section of `addValue`. */
  lemma PushIsAddValue(s: State)
    requires Enabled(s, Push)
    ensures
      var x, t := HeadPhase(s).made, Apply(s, Push);
      && (x.kind in s.lists ==>
            t.lists == s.lists[x.kind := s.lists[x.kind] + [x]] && HeadPhase(t) == Pushed && t.holder == None)
      && (x.kind !in s.lists ==> t.lists == s.lists && HeadPhase(t) == Threw)
  {
  }

  /** The list of a language is a stack: what was added last is taken first. */
  lemma LastInFirstOut(lists: Lists, x: Launcher)
    requires x.kind in lists
    ensures Extracted(PushedBack(lists, x), x.kind) == (Taken(x), lists)
  {
    var pushed := PushedBack(lists, x);
    assert pushed[x.kind][..|lists[x.kind]|] == lists[x.kind];
    assert Popped(pushed, x.kind) == lists;
  }
}
