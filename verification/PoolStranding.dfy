/** A run in which one failure of Docker leaves a request without a container for ever. */
module PoolStranding {
  import opened Wrappers
  import opened Pool
  import opened Protocol
  import opened Sums
  import opened PoolTheorems
  import opened PoolCapacity
  import opened PoolProgress

  lemma FourSteps(s0: State, a: Step, s1: State, b: Step, s2: State, c: Step, s3: State, d: Step, s4: State)
    requires Leads(s0, a, s1) && Leads(s1, b, s2) && Leads(s2, c, s3) && Leads(s3, d, s4)
    ensures Valid(s0, [a] + ([b] + ([c] + [d]))) && Run(s0, [a] + ([b] + ([c] + [d]))) == s4
  {
    RunFirst(s3, d, s4, []);
    assert [d] + [] == [d];
    RunFirst(s2, c, s3, [d]);
    RunFirst(s1, b, s2, [c] + [d]);
    RunFirst(s0, a, s1, [b] + ([c] + [d]));
  }

  /** One container of the given image and two requests for it. */
  function TwoRequests(image: string): State {
    var q := Request(CPP, Start, None, "", false);
    State([q, q], [], None, map[CPP := [Launcher("a", CPP)]], map["a" := image], map["a" := Origin(CPP, image)])
  }

  lemma TwoRequestsIsInit(image: string)
    ensures Init(TwoRequests(image))
  {
    var s := TwoRequests(image);
    forall id | id in s.issued ensures Placed(s.lists, id) {
      assert Position(s.lists, CPP, 0) && s.lists[CPP][0].id == id;
    }
  }

  /** The first request has had the container; the second one has not begun. */
  function FirstUses(phase: Phase, used: string, jobs: seq<nat>, docker: map<Id, string>, image: string): State {
    State([Request(CPP, phase, Some(Launcher("a", CPP)), used, false), Request(CPP, Start, None, "", false)],
          jobs, None, map[CPP := []], docker, map["a" := Origin(CPP, image)])
  }

  lemma FirstTakesIt(image: string)
    ensures Leads(Move(TwoRequests(image), 0, Testing).(holder := Some(0)), Test(0),
                  FirstUses(Leased, "", [], map["a" := image], image))
  {
  }

  lemma FirstInspects(image: string)
    ensures Leads(FirstUses(Leased, "", [], map["a" := image], image), Inspect(0, true),
                  FirstUses(Running, image, [], map["a" := image], image))
  {
  }

  lemma FirstGetsIt(image: string) returns (steps: seq<Step>)
    ensures Valid(TwoRequests(image), steps)
    ensures Run(TwoRequests(image), steps) == FirstUses(Running, image, [], map["a" := image], image)
  {
    var s0 := TwoRequests(image);
    var s1 := Move(s0, 0, Locking);
    var s2 := Move(s0, 0, Testing).(holder := Some(0));
    var s3 := FirstUses(Leased, "", [], map["a" := image], image);
    var s4 := FirstUses(Running, image, [], map["a" := image], image);
    FirstTakesIt(image);
    FirstInspects(image);
    steps := [Begin(0)] + ([Lock(0)] + ([Test(0)] + [Inspect(0, true)]));
    FourSteps(s0, Begin(0), s1, Lock(0), s2, Test(0), s3, Inspect(0, true), s4);
  }

  lemma FirstFinishes(image: string, docker: map<Id, string>)
    ensures Leads(FirstUses(Running, image, [], docker, image), Finish(0),
                  FirstUses(RemoveQueued, image, [0], docker, image))
  {
  }

  lemma FirstIsRemoved(image: string, docker: map<Id, string>)
    requires docker - {"a"} == map[]
    ensures Leads(FirstUses(RemoveQueued, image, [0], docker, image), RemoveJob(true),
                  FirstUses(Removed, image, [], map[], image))
  {
  }

  lemma FirstPosts(image: string)
    ensures Leads(FirstUses(Removed, image, [], map[], image), PostCreate(0),
                  FirstUses(CreateQueued, image, [0], map[], image))
  {
  }

  lemma FirstFails(image: string)
    ensures Leads(FirstUses(CreateQueued, image, [0], map[], image), CreateFail,
                  FirstUses(Lost, image, [], map[], image))
  {
  }

  lemma FirstLosesIt(image: string) returns (steps: seq<Step>)
    ensures Valid(FirstUses(Running, image, [], map["a" := image], image), steps)
    ensures Run(FirstUses(Running, image, [], map["a" := image], image), steps)
         == FirstUses(Lost, image, [], map[], image)
  {
    var docker: map<Id, string> := map["a" := image];
    FirstFinishes(image, docker);
    FirstIsRemoved(image, docker);
    FirstPosts(image);
    FirstFails(image);
    var s1, s2 := FirstUses(RemoveQueued, image, [0], docker, image), FirstUses(Removed, image, [], map[], image);
    var s3, s4 := FirstUses(CreateQueued, image, [0], map[], image), FirstUses(Lost, image, [], map[], image);
    steps := [Finish(0)] + ([RemoveJob(true)] + ([PostCreate(0)] + [CreateFail]));
    FourSteps(FirstUses(Running, image, [], docker, image), Finish(0), s1, RemoveJob(true), s2,
              PostCreate(0), s3, CreateFail, s4);
  }

  /** A single failed launch: the first request is through, the second one will wait for ever. */
  lemma OneFailureStrandsARequest(image: string) returns (steps: seq<Step>)
    ensures Init(TwoRequests(image)) && Valid(TwoRequests(image), steps)
    ensures Run(TwoRequests(image), steps) == FirstUses(Lost, image, [], map[], image)
    ensures !MayBeServed(Run(TwoRequests(image), steps), 1)
  {
    var a := FirstGetsIt(image);
    var b := FirstLosesIt(image);
    steps := a + b;
    RunJoins(TwoRequests(image), a, b);
    SumAtLeast(Run(TwoRequests(image), steps).requests, LossBit(CPP), 0);
    TwoRequestsIsInit(image);
    StuckExactlyWhenDrained(TwoRequests(image), steps, 1);
  }
}
