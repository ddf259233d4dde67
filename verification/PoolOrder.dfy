/** In which order the containers of a language are handed out: the storage is called a FIFO, and is none. */
module PoolOrder {
  import opened Wrappers
  import opened Pool
  import opened Protocol
  import opened Storage
  import opened PoolTheorems
  import L = Ledger

  lemma OldestTakenOnlyAlone(lists: Lists, l: Language)
    requires l in lists && lists[l] != [] && forall i, j | 0 <= i < j < |lists[l]| :: lists[l][i] != lists[l][j]
    ensures Extracted(lists, l).0 == Taken(lists[l][0]) <==> |lists[l]| == 1
  {
  }

  lemma ListedOnce(s: State, steps: seq<Step>, l: Language, i: nat, j: nat)
    requires Init(s) && Valid(s, steps) && l in Run(s, steps).lists && i < j < |Run(s, steps).lists[l]|
    ensures Run(s, steps).lists[l][i].id != Run(s, steps).lists[l][j].id
  {
    ContainersAreExclusive(s, steps, L.InList(l, i), L.InList(l, j));
  }

  /** In every reachable state a request gets the container that is longest in the list exactly if there is no other. */
  lemma FifoExactlyWhenAlone(s: State, steps: seq<Step>, r: nat)
    requires Init(s) && Valid(s, steps) && Enabled(Run(s, steps), Test(r))
    requires var t := Run(s, steps); t.requests[r].lang in t.lists && t.lists[t.requests[r].lang] != []
    ensures
      var t := Run(s, steps);
      var values := t.lists[t.requests[r].lang];
      && r < |Apply(t, Test(r)).requests|
      && (Apply(t, Test(r)).requests[r].lease == Some(values[0]) <==> |values| == 1)
  {
    var t := Run(s, steps);
    var l := t.requests[r].lang;
    forall i, j | 0 <= i < j < |t.lists[l]| ensures t.lists[l][i] != t.lists[l][j] {
      ListedOnce(s, steps, l, i, j);
    }
    OldestTakenOnlyAlone(t.lists, l);
    TestIsExtract(t, r);
  }

  lemma BottomStep(s: State, step: Step, l: Language)
    requires Enabled(s, step) && l in s.lists && s.lists[l] != []
    ensures l in Apply(s, step).lists
    ensures Apply(s, step).lists[l] != [] ==> Apply(s, step).lists[l][0] == s.lists[l][0]
  {
  }

  /** Over every run: while its list does not run empty, the first container of a language is never handed out. */
  lemma {:induction false} BottomStays(s: State, steps: seq<Step>, l: Language)
    requires Valid(s, steps) && l in s.lists
    requires forall i: nat | i <= |steps| :: l in After(s, steps, i).lists && After(s, steps, i).lists[l] != []
    ensures l in Run(s, steps).lists && s.lists[l] != [] && Run(s, steps).lists[l] != []
    ensures Run(s, steps).lists[l][0] == s.lists[l][0]
    decreases |steps|
  {
    assert s == After(s, steps, 0);
    if steps != [] {
      var s', rest := Apply(s, steps[0]), steps[1..];
      forall i: nat | i <= |rest| ensures After(s', rest, i) == After(s, steps, i + 1) {
        assert steps[..i + 1][1..] == rest[..i];
      }
      assert s' == After(s', rest, 0);
      BottomStep(s, steps[0], l);
      BottomStays(s', rest, l);
    }
  }

  /** Two containers, the one with the id "b" launched after the one with the id "a", and a request. */
  function TwoContainers(image: string): State {
    State([Request(CPP, Start, None, "", false)], [], None, map[CPP := [Launcher("a", CPP), Launcher("b", CPP)]],
          map["a" := image, "b" := image], map["a" := Origin(CPP, image), "b" := Origin(CPP, image)])
  }

  lemma TwoContainersIsInit(image: string)
    ensures Init(TwoContainers(image))
  {
    var s := TwoContainers(image);
    forall id | id in s.issued ensures Placed(s.lists, id) {
      assert Position(s.lists, CPP, if id == "a" then 0 else 1);
    }
  }

  function BeforeTaking(image: string): State {
    Move(TwoContainers(image), 0, Testing).(holder := Some(0))
  }

  lemma FirstStepsLead(image: string)
    ensures Leads(TwoContainers(image), Begin(0), Move(TwoContainers(image), 0, Locking))
    ensures Leads(Move(TwoContainers(image), 0, Locking), Lock(0), BeforeTaking(image))
  {
  }

  /** A run in which the newer container is handed out although the older one waits. */
  lemma NewerIsTaken(image: string) returns (steps: seq<Step>)
    ensures Init(TwoContainers(image)) && Valid(TwoContainers(image), steps)
    ensures
      var t := Run(TwoContainers(image), steps);
      && t.requests == [Request(CPP, Leased, Some(Launcher("b", CPP)), "", false)]
      && t.lists == map[CPP := [Launcher("a", CPP)]]
  {
    TwoContainersIsInit(image);
    FirstStepsLead(image);
    var s2 := BeforeTaking(image);
    assert s2.lists[CPP][..1] == [Launcher("a", CPP)];
    var s3 := Apply(s2, Test(0));
    RunFirst(s2, Test(0), s3, []);
    RunFirst(Move(TwoContainers(image), 0, Locking), Lock(0), s2, [Test(0)] + []);
    RunFirst(TwoContainers(image), Begin(0), Move(TwoContainers(image), 0, Locking), [Lock(0)] + ([Test(0)] + []));
    steps := [Begin(0)] + ([Lock(0)] + ([Test(0)] + []));
  }
}
