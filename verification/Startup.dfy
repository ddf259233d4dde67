/** Docker as the service sees it, and how the service sets up its pool. */
module Startup {
  import opened Wrappers
  import opened Pool
  import opened Protocol
  import opened Storage
  import opened Tables

  /** What Docker did, call by call. */
  datatype Event = Launched(id: Id, image: string) | Deleted(id: Id)

  /** Docker: any call may meet an outage, and no id is used twice. What Docker refuses is no outage. */
  class Docker {
    var containers: map<Id, string>
    var running: set<Id>
    var history: set<Id>
    ghost var outages: nat
    ghost var log: seq<Event>

    ghost predicate Valid()
      reads this
    {
      running <= containers.Keys <= history
    }

    /** The id of the new container, or the empty string on failure. */
    method Run(image: string) returns (id: Id)
      requires Valid()
      modifies this
      ensures Valid()
      ensures id == "" ==> containers == old(containers) && running == old(running) && history == old(history)
      ensures outages == old(outages) + if id == "" then 1 else 0
      ensures id != "" ==> id !in old(history) && history == old(history) + {id}
      ensures id != "" ==> containers == old(containers)[id := image] && running == old(running) + {id}
      ensures log == old(log) + if id == "" then [] else [Launched(id, image)]
    {
      var works: bool := *;
      if !works {
        outages := outages + 1;
        return "";
      }
      ghost var unused := UnusedId(history);
      id :| id != "" && id !in history;
      containers, running, history := containers[id := image], running + {id}, history + {id};
      log := log + [Launched(id, image)];
    }

    /** Where the inspection fails the answer is false. */
    method IsRunning(id: Id) returns (answer: bool)
      modifies this`outages
      ensures if outages == old(outages) then answer == (id in running) else outages == old(outages) + 1 && !answer
    {
      var works: bool := *;
      answer := works && id in running;
      outages := if works then outages else outages + 1;
    }

    /** Where the inspection fails, or there is no such container, the image is the empty string. */
    method GetImage(id: Id) returns (image: string)
      modifies this`outages
      ensures if outages == old(outages) then image == ImageOf(containers, id)
              else outages == old(outages) + 1 && image == ""
    {
      var works: bool := *;
      if !works {
        outages := outages + 1;
        return "";
      }
      image := ImageOf(containers, id);
    }

    /** A container that is not running is not killed. */
    method Kill(id: Id) returns (ok: bool)
      requires Valid()
      modifies this`running, this`outages
      ensures Valid()
      ensures running == if ok then old(running) - {id} else old(running)
      ensures if outages == old(outages) then ok <==> id in old(running) else outages == old(outages) + 1 && !ok
    {
      var works: bool := *;
      ok := works && id in running;
      running := if ok then running - {id} else running;
      outages := if works then outages else outages + 1;
    }

    /** A running container is not deleted. */
    method Delete(id: Id) returns (ok: bool)
      requires Valid()
      modifies this`containers, this`outages, this`log
      ensures Valid()
      ensures containers == if ok then old(containers) - {id} else old(containers)
      ensures log == old(log) + if ok then [Deleted(id)] else []
      ensures if outages == old(outages) then ok <==> id in old(containers) && id !in running
              else outages == old(outages) + 1 && !ok
    {
      var works: bool := *;
      ok := works && id in containers && id !in running;
      if ok {
        containers, log := containers - {id}, log + [Deleted(id)];
      }
      outages := if works then outages else outages + 1;
    }

    /** All containers with their images, in any order; nothing on failure. */
    method GetAllContainers() returns (ghost ok: bool, listed: seq<(Id, string)>)
      modifies this`outages
      ensures outages == old(outages) + if ok then 0 else 1
      ensures !ok ==> listed == []
      ensures ok ==> forall id, image :: (id, image) in listed <==> id in containers && containers[id] == image
      ensures DistinctIds(listed)
    {
      var works: bool := *;
      ok, listed := works, [];
      outages := if works then outages else outages + 1;
      if works {
        var ids := containers.Keys;
        while ids != {}
          invariant ids <= containers.Keys
          invariant forall id, image ::
                      (id, image) in listed <==> id in containers && id !in ids && containers[id] == image
          invariant DistinctIds(listed)
        {
          var id :| id in ids;
          assert forall i | 0 <= i < |listed| :: (listed[i].0, listed[i].1) in listed;
          listed, ids := listed + [(id, containers[id])], ids - {id};
        }
      }
    }
  }

  class CodeLauncherOSManipulator {
    const docker: Docker
    const storage: ExtractingStorage
    ghost var issued: map<Id, Origin>
    ghost var listed: bool                  // at startup Docker listed its containers
    ghost var notRemoved: set<Id>           // leftovers that Docker failed to remove then
    ghost var failures: Failures            // launches that failed then

    ghost predicate Valid()
      reads this, docker
    {
      docker.Valid() && issued.Keys <= docker.history
    }

    /** The containers of others. */
    ghost function Foreign(): map<Id, string>
      reads this, docker
    {
      docker.containers - issued.Keys
    }

    /**
     The service starts: it clears away old containers and launches its own. The pool is ready, the
     containers of others are those found at startup but for the cleared ones, and each language has
     as many containers as the configuration asks for in its three tables, less the failed launches.
     */
    constructor (config: Config, docker: Docker, storage: ExtractingStorage)
      requires docker.Valid() && storage.storage == map[]
      modifies docker, storage
      ensures Valid() && this.docker == docker && this.storage == storage
      ensures Ready(storage.storage, docker.containers, issued)
      ensures Foreign()
           == old(docker.containers) - if listed then Leftovers(old(docker.containers)) - notRemoved else {}
      ensures forall l :: |Listed(storage.storage, l)| + FailedFor(failures, l) == AskedFor(config, l)
      ensures forall o: Origin ::
                Count(Listed(storage.storage, o.kind), issued, o) + FailedOf(config, failures, o) == AskedOf(config, o)
      ensures forall id | id in issued ::
                || Names(config.courses, issued[id])
                || Names(config.playgrounds, issued[id])
                || Names(config.practices, issued[id])
      ensures docker.outages >= old(docker.outages)
              + |failures.courses| + |failures.playgrounds| + |failures.practices|
              + if listed && notRemoved == {} then 0 else 1
      ensures docker.outages == old(docker.outages) ==>
                Foreign() == old(docker.containers) - Leftovers(old(docker.containers))
    {
      this.docker, this.storage, this.issued := docker, storage, map[];
      new;
      listed, notRemoved := SyncRemoveRunningCodeLaunchers();
      EmptyIsReady(docker.containers);
      assert Foreign() == docker.containers;
      failures := SyncCreateCodeLaunchers(config);
    }

    method CreateCodeLauncher(image: string, language: Language) returns (r: Option<Launcher>)
      requires Valid()
      modifies docker, this`issued
      ensures Valid()
      ensures r.None? ==> docker.containers == old(docker.containers) && issued == old(issued)
      ensures r.Some? ==> r.value.kind == language
      ensures r.Some? ==> r.value.id !in old(docker.containers) && r.value.id !in old(issued)
      ensures r.Some? ==> docker.containers == old(docker.containers)[r.value.id := image]
      ensures r.Some? ==> issued == old(issued)[r.value.id := Origin(language, image)]
      ensures docker.outages == old(docker.outages) + if r.Some? then 0 else 1
      ensures docker.running == old(docker.running) + if r.Some? then {r.value.id} else {}
      ensures docker.log == old(docker.log) + if r.Some? then [Launched(r.value.id, image)] else []
    {
      var id := docker.Run(image);
      if id == "" {
        return None;
      }
      issued := issued[id := Origin(language, image)];
      return Some(Launcher(id, language));
    }

    /** The container is gone, running or not, unless Docker has an outage; and no other container is touched. */
    method RemoveCodeLauncher(id: Id) returns (ghost gone: bool)
      requires Valid()
      modifies docker
      ensures Valid()
      ensures docker.containers == if gone then old(docker.containers) - {id} else old(docker.containers)
      ensures docker.outages == old(docker.outages) ==> gone
      ensures docker.outages >= old(docker.outages)
      ensures docker.running - {id} == old(docker.running) - {id}
      ensures docker.history == old(docker.history)
      ensures docker.log == old(docker.log) + if gone && id in old(docker.containers) then [Deleted(id)] else []
    {
      var running := docker.IsRunning(id);
      if running {
        var killed := docker.Kill(id);
      }
      var deleted := docker.Delete(id);
      gone := id !in docker.containers;
    }

    /** The loop over the containers found at startup. */
    method KillContainers(working: seq<(Id, string)>, hit: string -> bool)
      returns (ghost removed: set<Id>, ghost failed: set<Id>)
      requires Valid() && DistinctIds(working)
      modifies docker
      ensures Valid() && docker.containers == old(docker.containers) - removed
      ensures removed + failed == Matching(working, hit) && removed !! failed
      ensures docker.outages >= old(docker.outages) + if failed == {} then 0 else 1
      ensures docker.running - Matching(working, hit) == old(docker.running) - Matching(working, hit)
    {
      removed, failed := {}, {};
      for i := 0 to |working|
        invariant Valid() && docker.containers == old(docker.containers) - removed
        invariant removed + failed == Matching(working[..i], hit) && removed !! failed
        invariant docker.outages >= old(docker.outages) + if failed == {} then 0 else 1
        invariant docker.running - Matching(working[..i], hit) == old(docker.running) - Matching(working[..i], hit)
      {
        var (id, image) := working[i];
        MatchingGrows(working, i, hit);
        if hit(image) {
          ghost var running := docker.running;
          ghost var gone := RemoveCodeLauncher(id);
          KeptApart(docker.running, running, old(docker.running), Matching(working[..i], hit), id);
          CutTwice(old(docker.containers), removed, id);
          removed, failed := if gone then removed + {id} else removed, if gone then failed else failed + {id};
        }
      }
      assert working[..|working|] == working;
    }

    /** Of the containers found at startup exactly those are removed whose image has the pattern, unless Docker
        has an outage; the others go on running or not as before. */
    method SyncRemoveRunningCodeLaunchers() returns (ghost listed: bool, ghost failed: set<Id>)
      requires Valid()
      modifies docker
      ensures Valid()
      ensures docker.containers
           == old(docker.containers) - if listed then Leftovers(old(docker.containers)) - failed else {}
      ensures docker.outages >= old(docker.outages) + if listed && failed == {} then 0 else 1
      ensures docker.running - Leftovers(old(docker.containers))
           == old(docker.running) - Leftovers(old(docker.containers))
    {
      var ok, working := docker.GetAllContainers();
      if ok {
        ListedMatch(docker.containers, working);
      }
      ghost var removed, kept := KillContainers(working, IsSenjun());
      listed, failed := ok, kept;
      assert ok ==> removed == Leftovers(old(docker.containers)) - failed;
      if !ok {
        assert removed == {} && Matching(working, IsSenjun()) == {};
        assert docker.running - {} == docker.running && old(docker.running) - {} == old(docker.running);
      }
    }

    /** The inner loop of startup: `n` launches, of which some fail. */
    method LaunchMany(image: string, language: Language, n: nat) returns (launched: seq<Launcher>)
      requires Valid() && Ready(storage.storage, docker.containers, issued)
      modifies docker, this`issued
      ensures Valid() && Foreign() == old(Foreign())
      ensures Ready(AddedAll(storage.storage, language, launched), docker.containers, issued)
      ensures |launched| <= n && |launched| + docker.outages == n + old(docker.outages)
      ensures AllFrom(old(issued), issued, launched, Origin(language, image))
    {
      launched := [];
      for index := 0 to n
        invariant Valid() && Foreign() == old(Foreign())
        invariant Ready(AddedAll(storage.storage, language, launched), docker.containers, issued)
        invariant |launched| <= index && |launched| + docker.outages == index + old(docker.outages)
        invariant AllFrom(old(issued), issued, launched, Origin(language, image))
      {
        ghost var docker', issued' := docker.containers, issued;
        var container := CreateCodeLauncher(image, language);
        if container == None {
          continue;
        }
        ReadyGrows(AddedAll(storage.storage, language, launched), docker', issued', container.value, image);
        AddedOneMore(storage.storage, language, launched, container.value);
        AllFromStep(old(issued), issued', launched, Origin(language, image), container.value);
        launched := launched + [container.value];
      }
    }

    /** One of the three passes of startup over a table of the configuration. */
    method LaunchContainers(types: ContainerTypes) returns (ghost failed: multiset<Language>)
      requires Valid() && Ready(storage.storage, docker.containers, issued)
      modifies docker, storage, this`issued
      ensures Valid() && Foreign() == old(Foreign()) && Extends(old(issued), issued)
      ensures Ready(storage.storage, docker.containers, issued)
      ensures forall l ::
                GrownBy(Listed(old(storage.storage), l), Listed(storage.storage, l), issued, l, types, failed[l])
      ensures LaunchedFrom(old(issued), issued, types)
      ensures docker.outages == old(docker.outages) + |failed|
    {
      failed := multiset{};
      var languages := types.Keys;
      while languages != {}
        invariant languages <= types.Keys
        invariant Valid() && Foreign() == old(Foreign()) && Extends(old(issued), issued)
        invariant Ready(storage.storage, docker.containers, issued)
        invariant LaunchedFrom(old(issued), issued, types)
        invariant Passed(old(storage.storage), storage.storage, issued, types, failed, languages)
        invariant docker.outages == old(docker.outages) + |failed|
      {
        var language :| language in languages;
        var info := types[language];
        ghost var lists', issued' := storage.storage, issued;
        var containers := LaunchMany(info.imageName, language, info.launched);
        if containers != [] {
          storage.AddValues(language, containers);
        }
        FromStep(old(issued), issued', issued, types, language);
        PassStep(old(storage.storage), lists', containers, issued', issued, types, failed, languages, language);
        failed := failed[language := info.launched - |containers|];
        languages := languages - {language};
      }
    }

    /** All that startup launches: what the tables ask for, by language and by image, less the failures. */
    method SyncCreateCodeLaunchers(config: Config) returns (ghost failed: Failures)
      requires Valid() && Ready(storage.storage, docker.containers, issued)
      modifies docker, storage, this`issued
      ensures Valid() && Foreign() == old(Foreign())
      ensures Ready(storage.storage, docker.containers, issued)
      ensures forall l ::
                |Listed(storage.storage, l)| + FailedFor(failed, l)
                == |Listed(old(storage.storage), l)| + AskedFor(config, l)
      ensures forall o: Origin ::
                Count(Listed(storage.storage, o.kind), issued, o) + FailedOf(config, failed, o)
                == Count(Listed(old(storage.storage), o.kind), old(issued), o) + AskedOf(config, o)
      ensures forall id | id in issued && id !in old(issued) ::
                || Names(config.courses, issued[id])
                || Names(config.playgrounds, issued[id])
                || Names(config.practices, issued[id])
      ensures docker.outages == old(docker.outages) + |failed.courses| + |failed.playgrounds| + |failed.practices|
    {
      ghost var f1 := LaunchContainers(config.courses);
      ghost var lists1, docker1, issued1 := storage.storage, docker.containers, issued;
      ghost var f2 := LaunchContainers(config.playgrounds);
      ghost var lists2, docker2, issued2 := storage.storage, docker.containers, issued;
      ghost var f3 := LaunchContainers(config.practices);
      failed := Failures(f1, f2, f3);
      forall o: Origin
        ensures Count(Listed(storage.storage, o.kind), issued, o) + FailedOf(config, failed, o)
             == Count(Listed(old(storage.storage), o.kind), old(issued), o) + AskedOf(config, o)
      {
        ListedAreIssued(old(storage.storage), old(docker.containers), old(issued), o.kind);
        ListedAreIssued(lists1, docker1, issued1, o.kind);
        ListedAreIssued(lists2, docker2, issued2, o.kind);
        ThreePasses(config, failed, old(storage.storage), lists1, lists2, storage.storage,
                    old(issued), issued1, issued2, issued, o);
      }
    }

    /** The job that launches a replacement and puts it into the list of its language. */
    method AsyncCreateCodeLauncher(kind: Language, image: string) returns (ghost made: Option<Launcher>, threw: bool)
      requires Valid()
      modifies docker, storage, this`issued
      ensures Valid() && Foreign() == old(Foreign())
      ensures threw <==> made.Some? && kind !in old(storage.storage)
      ensures made.None? || threw ==> storage.storage == old(storage.storage)
      ensures made.None? ==> docker.containers == old(docker.containers)
      ensures made.Some? ==> made.value.kind == kind
      ensures made.Some? ==> made.value.id !in old(docker.containers) && made.value.id !in old(issued)
      ensures made.Some? ==> docker.containers == old(docker.containers)[made.value.id := image]
      ensures made.Some? && !threw ==> storage.storage == PushedBack(old(storage.storage), made.value)
      ensures docker.outages == old(docker.outages) + if made.Some? then 0 else 1
      ensures docker.log == old(docker.log) + if made.Some? then [Launched(made.value.id, image)] else []
    {
      threw := false;
      var container := CreateCodeLauncher(image, kind);
      made := container;
      if container == None {
        return;
      }
      var added := storage.AddValue(kind, container.value);
      threw := !added;
    }
  }

  /** `CodeLauncherInfo`: the container, its image as Docker reports it, and its language. */
  datatype CodeLauncherInfo = CodeLauncherInfo(containerId: Id, image: string, kind: Language)

  /** How `getCodeLauncher` ends: no container for this language, a wait, a throw of `storage.at`, or a lease. */
  datatype Lease = NoSuchLanguage | MustBlock | AtThrew | Granted(info: CodeLauncherInfo)

  class RestartingCodeLauncherProvider {
    const manipulator: CodeLauncherOSManipulator

    constructor (manipulator: CodeLauncherOSManipulator)
      ensures this.manipulator == manipulator
    {
      this.manipulator := manipulator;
    }

    /** Up to the point where the caller has a container, must wait, or is refused. Thanks to the check in front,
        `storage.at` does not throw. A lease is the last container of the list, with its image as Docker reports it. */
    method GetCodeLauncher(language: Language) returns (r: Lease)
      modifies manipulator.storage, manipulator.docker`outages
      ensures r != AtThrew && manipulator.docker.outages >= old(manipulator.docker.outages)
      ensures r == NoSuchLanguage <==> language !in old(manipulator.storage.storage)
      ensures r == MustBlock <==>
              language in old(manipulator.storage.storage) && old(manipulator.storage.storage)[language] == []
      ensures !r.Granted? ==>
                && manipulator.storage.storage == old(manipulator.storage.storage)
                && manipulator.docker.outages == old(manipulator.docker.outages)
      ensures r.Granted? ==>
                && manipulator.storage.storage == Popped(old(manipulator.storage.storage), language)
                && Launcher(r.info.containerId, r.info.kind) == Back(old(manipulator.storage.storage), language)
                && r.info.image == if manipulator.docker.outages == old(manipulator.docker.outages)
                                   then ImageOf(manipulator.docker.containers, r.info.containerId) else ""
    {
      var valid := manipulator.storage.Contains(language);
      if !valid {
        return NoSuchLanguage;
      }
      var e := manipulator.storage.ExtractOnce(language);
      match e {
        case Missing => return AtThrew;
        case MustWait => return MustBlock;
        case Taken(launcher) =>
          var image := manipulator.docker.GetImage(launcher.id);
          return Granted(CodeLauncherInfo(launcher.id, image, launcher.kind));
      }
    }

    /** The release of a lease: the used container goes first, and then one of the same image and language takes its
        place in the list. */
    method RestartCodeLauncher(info: CodeLauncherInfo)
      returns (ghost removed: bool, ghost made: Option<Launcher>, threw: bool)
      requires manipulator.Valid()
      modifies manipulator.docker, manipulator.storage, manipulator`issued
      ensures manipulator.Valid()
      ensures made.Some? ==> made.value.kind == info.kind && made.value.id !in old(manipulator.issued)
      ensures threw <==> made.Some? && info.kind !in old(manipulator.storage.storage)
      ensures manipulator.storage.storage ==
              if made.Some? && !threw then PushedBack(old(manipulator.storage.storage), made.value)
              else old(manipulator.storage.storage)
      ensures manipulator.docker.outages >= old(manipulator.docker.outages)
      ensures manipulator.docker.outages == old(manipulator.docker.outages) ==> removed && made.Some?
      ensures
        var kept := old(manipulator.docker.containers) - if removed then {info.containerId} else {};
        manipulator.docker.containers == if made.Some? then kept[made.value.id := info.image] else kept
      ensures manipulator.docker.log ==
              old(manipulator.docker.log)
              + (if removed && info.containerId in old(manipulator.docker.containers)
                 then [Deleted(info.containerId)] else [])
              + if made.Some? then [Launched(made.value.id, info.image)] else []
    {
      removed := manipulator.RemoveCodeLauncher(info.containerId);
      made, threw := manipulator.AsyncCreateCodeLauncher(info.kind, info.image);
    }

    /** A request on its own: it leases a container, runs its code, and the end of the lease runs the callback. Unless
        a call to Docker fails, a fresh container of the same image and language has then taken the place of the used
        one, in the list and in Docker, and nothing else has changed. */
    method ServeOnce(language: Language) returns (r: Lease, ghost made: Option<Launcher>)
      requires manipulator.Valid()
      requires
        var lists := manipulator.storage.storage;
        language in lists && lists[language] != [] ==> Back(lists, language).kind == language
      modifies manipulator.docker, manipulator.storage, manipulator`issued
      ensures manipulator.Valid() && r != AtThrew
      ensures r == NoSuchLanguage <==> language !in old(manipulator.storage.storage)
      ensures r == MustBlock <==>
              language in old(manipulator.storage.storage) && old(manipulator.storage.storage)[language] == []
      ensures !r.Granted? ==> manipulator.storage.storage == old(manipulator.storage.storage)
      ensures r.Granted? && manipulator.docker.outages == old(manipulator.docker.outages) ==>
                && made.Some? && made.value.kind == language && made.value.id !in old(manipulator.issued)
                && r.info.containerId == Back(old(manipulator.storage.storage), language).id
                && manipulator.storage.storage
                   == PushedBack(Popped(old(manipulator.storage.storage), language), made.value)
                && manipulator.docker.containers ==
                   (old(manipulator.docker.containers) - {r.info.containerId})
                     [made.value.id := ImageOf(old(manipulator.docker.containers), r.info.containerId)]
    {
      made := None;
      r := GetCodeLauncher(language);
      if r.Granted? {
        ghost var removed, replacement;
        var threw;
        removed, replacement, threw := RestartCodeLauncher(r.info);
        made := replacement;
      }
    }
  }

  /** A ready pool is a state from which the protocol starts, with any requests to come. */
  lemma ReadyStarts(lists: Lists, docker: map<Id, string>, issued: map<Id, Origin>, languages: seq<Language>)
    returns (s: State)
    requires Ready(lists, docker, issued)
    ensures Init(s) && s.lists == lists && s.docker == docker && s.issued == issued
    ensures |s.requests| == |languages| && forall i | 0 <= i < |languages| :: s.requests[i].lang == languages[i]
  {
    s := State(seq(|languages|, i requires 0 <= i < |languages| => Request(languages[i], Start, None, "", false)),
               [], None, lists, docker, issued);
  }
}
