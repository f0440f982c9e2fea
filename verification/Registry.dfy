/** The worker's task registry: unique names and aliases, and the declared follow-up graph. */
module Registry {
  import opened TaskTypes

  /** A follow-up a task may create. It may join the workflow exactly when it carries a revision. */
  datatype Target = Target(queue: string, jobType: string, revision: Option<string>)

  datatype Task = Task(name: string, queue: string, aliases: seq<string>, targets: seq<Target>)

  predicate ForMembers(t: Target) {
    t.revision.Some?
  }

  /** What the constructor of a task checks about names and targets. */
  predicate ValidTask(t: Task) {
    && Distinct(t.aliases) && t.name !in t.aliases
    && (forall i, j :: 0 <= i < j < |t.targets| ==> (t.targets[i].queue, t.targets[i].jobType) != (t.targets[j].queue, t.targets[j].jobType))
    && (forall i, j :: 0 <= i < j < |t.targets| && ForMembers(t.targets[i]) && ForMembers(t.targets[j]) ==>
          t.targets[i].revision == t.targets[j].revision)
  }

  predicate Names(t: Task, key: string) {
    key == t.name || key in t.aliases
  }

  /** The tasks by canonical name, and by every name. */
  datatype Catalog = Catalog(canonical: map<string, Task>, lookup: map<string, Task>)

  ghost predicate CatalogOk(c: Catalog) {
    && (forall n :: n in c.canonical ==> c.canonical[n].name == n && ValidTask(c.canonical[n]))
    && (forall n, key :: n in c.canonical && Names(c.canonical[n], key) ==> key in c.lookup && c.lookup[key] == c.canonical[n])
    && (forall key :: key in c.lookup ==>
          Names(c.lookup[key], key) && c.lookup[key].name in c.canonical && c.canonical[c.lookup[key].name] == c.lookup[key])
  }

  predicate Collides(c: Catalog, t: Task) {
    exists key :: key in c.lookup && Names(t, key)
  }

  /** The catalog with one more task. */
  function Added(c: Catalog, t: Task): Catalog {
    Catalog(c.canonical[t.name := t], map key | key in c.lookup.Keys + {t.name} + Elements(t.aliases) :: if Names(t, key) then t else c.lookup[key])
  }

  function AddAll(c: Catalog, tasks: seq<Task>): Option<Catalog> {
    if tasks == [] then Some(c)
    else
      match AddAll(c, tasks[..|tasks| - 1])
      case None => None
      case Some(d) => if Collides(d, tasks[|tasks| - 1]) then None else Some(Added(d, tasks[|tasks| - 1]))
  }

  /** A task without a taken name is not registered under its own. */
  lemma FreshNames(c: Catalog, t: Task)
    requires CatalogOk(c) && !Collides(c, t)
    ensures t.name !in c.canonical && t.name !in c.lookup && forall key :: key in c.lookup ==> !Names(t, key)
  {
    assert Names(t, t.name);
    assert t.name !in c.lookup;
    assert t.name in c.canonical ==> Names(c.canonical[t.name], t.name);
  }

  lemma AddedLookup(c: Catalog, t: Task)
    requires forall key :: key in c.lookup ==> !Names(t, key)
    ensures var d := Added(c, t);
            && (forall key :: key in d.lookup <==> key in c.lookup || Names(t, key))
            && (forall key :: key in c.lookup ==> d.lookup[key] == c.lookup[key])
            && (forall key :: Names(t, key) ==> d.lookup[key] == t)
  {
  }

  lemma AddedOk(c: Catalog, t: Task)
    requires CatalogOk(c) && ValidTask(t) && !Collides(c, t)
    ensures CatalogOk(Added(c, t)) && t.name !in c.canonical
  {
    FreshNames(c, t);
    AddedLookup(c, t);
    var d := Added(c, t);
    assert d.canonical == c.canonical[t.name := t] && Names(t, t.name);
    hide Added, Names, ValidTask, Collides;
  }

  lemma {:induction false} AddAllStops(c: Catalog, tasks: seq<Task>, n: nat)
    requires n <= |tasks| && AddAll(c, tasks[..n]).None?
    ensures AddAll(c, tasks).None?
  {
    if n < |tasks| {
      assert tasks[..|tasks| - 1][..n] == tasks[..n];
      AddAllStops(c, tasks[..|tasks| - 1], n);
    } else {
      assert tasks[..n] == tasks;
    }
  }

  /** Two names are never shared: neither between two of the tasks nor with the catalog. */
  ghost predicate Unclaimed(c: Catalog, tasks: seq<Task>) {
    && (forall i, key :: 0 <= i < |tasks| && Names(tasks[i], key) ==> key !in c.lookup)
    && (forall i, j, key :: 0 <= i < j < |tasks| && Names(tasks[i], key) ==> !Names(tasks[j], key))
  }

  /** `d` is `c` with exactly these tasks added. */
  ghost predicate Extended(c: Catalog, tasks: seq<Task>, d: Catalog) {
    && (forall n :: n in c.canonical ==> n in d.canonical && d.canonical[n] == c.canonical[n])
    && (forall i :: 0 <= i < |tasks| ==> tasks[i].name in d.canonical && d.canonical[tasks[i].name] == tasks[i])
    && (forall key :: key in d.lookup <==> key in c.lookup || exists i :: 0 <= i < |tasks| && Names(tasks[i], key))
  }

  lemma ExtendedOnce(c: Catalog, first: seq<Task>, d: Catalog, t: Task)
    requires Extended(c, first, d) && t.name !in d.canonical
    ensures Extended(c, first + [t], Added(d, t))
  {
    var all, e := first + [t], Added(d, t);
    forall key ensures key in e.lookup <==> key in c.lookup || exists i :: 0 <= i < |all| && Names(all[i], key) {
      assert key in e.lookup <==> key in d.lookup || Names(t, key);
      if Names(t, key) { assert Names(all[|first|], key); }
      if i :| 0 <= i < |first| && Names(first[i], key) { assert Names(all[i], key); }
    }
  }

  /** Registration succeeds exactly when no name is taken; it then adds exactly the given tasks and keeps
      every name unique. */
  lemma {:induction false} AddAllIff(c: Catalog, tasks: seq<Task>)
    requires CatalogOk(c) && forall i :: 0 <= i < |tasks| ==> ValidTask(tasks[i])
    ensures AddAll(c, tasks).Some? <==> Unclaimed(c, tasks)
    ensures AddAll(c, tasks).Some? ==> CatalogOk(AddAll(c, tasks).value) && Extended(c, tasks, AddAll(c, tasks).value)
  {
    hide CatalogOk, Extended, Unclaimed, Added, ValidTask, Collides;
    if tasks != [] {
      var n := |tasks| - 1;
      var first, t := tasks[..n], tasks[n];
      AddAllIff(c, first);
      assert first + [t] == tasks;
      if AddAll(c, first).Some? {
        var d := AddAll(c, first).value;
        LastUnclaimed(c, first, d, t);
        if !Collides(d, t) {
          AddedOk(d, t);
          ExtendedOnce(c, first, d, t);
        }
      } else {
        NotUnclaimed(c, tasks, n);
      }
    } else {
      NothingAdded(c);
    }
  }

  lemma NothingAdded(c: Catalog)
    ensures Unclaimed(c, []) && Extended(c, [], c)
  {
  }

  lemma LastUnclaimed(c: Catalog, first: seq<Task>, d: Catalog, t: Task)
    requires Unclaimed(c, first) && Extended(c, first, d)
    ensures Unclaimed(c, first + [t]) <==> !Collides(d, t)
  {
    var all := first + [t];
    if Unclaimed(c, all) {
      forall key | key in d.lookup ensures !Names(t, key) {
        assert all[|first|] == t;
        forall i | 0 <= i < |first| && Names(first[i], key) ensures !Names(t, key) { assert all[i] == first[i]; }
      }
    }
    if !Collides(d, t) {
      forall i, j, key | 0 <= i < j < |all| && Names(all[i], key) ensures !Names(all[j], key) {
        if j == |first| { assert Names(first[i], key) && key in d.lookup; }
      }
    }
  }

  lemma NotUnclaimed(c: Catalog, tasks: seq<Task>, n: nat)
    requires n <= |tasks| && !Unclaimed(c, tasks[..n])
    ensures !Unclaimed(c, tasks)
  {
    var first := tasks[..n];
    if i, key :| 0 <= i < |first| && Names(first[i], key) && key in c.lookup {
      assert Names(tasks[i], key);
    } else {
      var i, j, key :| 0 <= i < j < |first| && Names(first[i], key) && Names(first[j], key);
      assert Names(tasks[i], key) && Names(tasks[j], key);
    }
  }

  function Resolve(c: Catalog, name: string): Option<Task> {
    if name in c.lookup then Some(c.lookup[name]) else None
  }

  /** The declared target is registered under the queue it names. */
  predicate TargetOk(c: Catalog, t: Target) {
    t.jobType in c.lookup && c.lookup[t.jobType].queue == t.queue
  }

  /** The canonical identity of a declared target. */
  function Identity(c: Catalog, t: Target): (string, string)
    requires t.jobType in c.lookup
  {
    (t.queue, c.lookup[t.jobType].name)
  }

  predicate ParentOk(c: Catalog, parent: Task) {
    && (forall i :: 0 <= i < |parent.targets| ==> TargetOk(c, parent.targets[i]))
    && (forall i, j :: 0 <= i < j < |parent.targets| ==> Identity(c, parent.targets[i]) != Identity(c, parent.targets[j]))
  }

  ghost predicate GraphOk(c: Catalog) {
    forall n :: n in c.canonical ==> ParentOk(c, c.canonical[n])
  }

  // ---- follow-ups of one handler -------------------------------------------------------------

  function QueueOf(f: Followup, parent: Task): string {
    if f.queue.Some? then f.queue.value else parent.queue
  }

  /** The declaration that covers a canonical identity. */
  predicate Declares(c: Catalog, parent: Task, id: (string, string), member: bool) {
    exists i :: 0 <= i < |parent.targets| && parent.targets[i].jobType in c.lookup
      && Identity(c, parent.targets[i]) == id && (member ==> ForMembers(parent.targets[i]))
  }

  predicate DeclarationsOk(c: Catalog, parent: Task) {
    && (forall i :: 0 <= i < |parent.targets| ==> parent.targets[i].jobType in c.lookup)
    && (forall i, j :: 0 <= i < j < |parent.targets| ==> Identity(c, parent.targets[i]) != Identity(c, parent.targets[j]))
  }

  /** `accepts` is the validation of a payload by the model of a task; it may rewrite the payload. */
  type Payloads = (string, string) -> Option<string>

  function NormalizeOne(c: Catalog, accepts: Payloads, parent: Task, f: Followup): Result<Followup, Error> {
    if f.jobType !in c.lookup then Err(Config("followup task is not registered"))
    else
      var target := c.lookup[f.jobType];
      var queue := QueueOf(f, parent);
      if target.queue != queue || !Declares(c, parent, (queue, target.name), false) then
        Err(Config("followup target is not declared for parent"))
      else if f.member && !Declares(c, parent, (queue, target.name), true) then
        Err(Config("followup target is not member-enabled for parent"))
      else
        match accepts(target.name, f.payload)
        case None => Err(Config("followup payload is invalid for target"))
        case Some(payload) =>
          Ok(f.(jobType := target.name, queue := if queue != parent.queue then Some(queue) else None, payload := payload))
  }

  function NormalizeAll(c: Catalog, accepts: Payloads, parent: Task, fs: seq<Followup>): Result<seq<Followup>, Error> {
    if fs == [] then Ok([])
    else
      match NormalizeAll(c, accepts, parent, fs[..|fs| - 1])
      case Err(e) => Err(e)
      case Ok(done) =>
        match NormalizeOne(c, accepts, parent, fs[|fs| - 1])
        case Err(e) => Err(e)
        case Ok(f) => Ok(done + [f])
  }

  function Normalize(c: Catalog, accepts: Payloads, parent: Task, fs: seq<Followup>): Result<seq<Followup>, Error> {
    if !DeclarationsOk(c, parent) then Err(Config("followup targets")) else NormalizeAll(c, accepts, parent, fs)
  }

  lemma {:induction false} NormalizeStops(c: Catalog, accepts: Payloads, parent: Task, fs: seq<Followup>, n: nat)
    requires n <= |fs| && NormalizeAll(c, accepts, parent, fs[..n]).Err?
    ensures NormalizeAll(c, accepts, parent, fs) == NormalizeAll(c, accepts, parent, fs[..n])
  {
    if n < |fs| {
      assert fs[..|fs| - 1][..n] == fs[..n];
      NormalizeStops(c, accepts, parent, fs[..|fs| - 1], n);
    } else {
      assert fs[..n] == fs;
    }
  }

  /** The follow-up names a registered task on the queue it asks for, or the parent's; the parent declares that task, as a
      member if it is to be one; and the task accepts the payload. */
  predicate Acceptable(c: Catalog, accepts: Payloads, parent: Task, f: Followup) {
    && f.jobType in c.lookup
    && (var task := c.lookup[f.jobType];
        && task.queue == (match f.queue case Some(q) => q case None => parent.queue)
        && Declares(c, parent, (task.queue, task.name), f.member) && accepts(task.name, f.payload).Some?)
  }

  /** Normal form of one follow-up: the task by its canonical name, the payload as that task accepted it, and a queue
      only when it is not the parent's; all else is kept. */
  predicate NormalFormOf(c: Catalog, accepts: Payloads, parent: Task, f: Followup, n: Followup) {
    && Acceptable(c, accepts, parent, f)
    && n.step == f.step && n.member == f.member && n.settings == f.settings && n.scheduledAt == f.scheduledAt
    && n.maxAttempts == f.maxAttempts && n.leaseSeconds == f.leaseSeconds
    && n.jobType == c.lookup[f.jobType].name && Some(n.payload) == accepts(n.jobType, f.payload)
    && n.jobType in c.canonical && c.canonical[n.jobType].queue == QueueOf(n, parent)
    && (n.queue.None? <==> c.canonical[n.jobType].queue == parent.queue)
    && Declares(c, parent, (QueueOf(n, parent), n.jobType), n.member)
  }

  lemma NormalizeOneIsNormal(c: Catalog, accepts: Payloads, parent: Task, f: Followup)
    requires CatalogOk(c)
    ensures NormalizeOne(c, accepts, parent, f).Ok? <==> Acceptable(c, accepts, parent, f)
    ensures NormalizeOne(c, accepts, parent, f).Ok? ==> NormalFormOf(c, accepts, parent, f, NormalizeOne(c, accepts, parent, f).value)
  {
    if f.jobType in c.lookup && f.member {
      var id := (c.lookup[f.jobType].queue, c.lookup[f.jobType].name);
      assert Declares(c, parent, id, true) ==> Declares(c, parent, id, false);
    }
    hide Declares;
  }

  /** A handler's follow-ups are normalized exactly when every one of them is acceptable; each is then brought into its
      normal form, in order. */
  lemma {:induction false} NormalizedAreDeclared(c: Catalog, accepts: Payloads, parent: Task, fs: seq<Followup>)
    requires CatalogOk(c)
    ensures NormalizeAll(c, accepts, parent, fs).Ok? <==> forall i :: 0 <= i < |fs| ==> Acceptable(c, accepts, parent, fs[i])
    ensures NormalizeAll(c, accepts, parent, fs).Ok? ==>
              var ns := NormalizeAll(c, accepts, parent, fs).value;
              |ns| == |fs| && forall i :: 0 <= i < |fs| ==> NormalFormOf(c, accepts, parent, fs[i], ns[i])
  {
    hide CatalogOk, NormalizeOne, NormalFormOf, Acceptable;
    if fs != [] {
      var n := |fs| - 1;
      NormalizedAreDeclared(c, accepts, parent, fs[..n]);
      NormalizeOneIsNormal(c, accepts, parent, fs[n]);
      assert (forall i :: 0 <= i < |fs| ==> Acceptable(c, accepts, parent, fs[i]))
        <==> (forall i :: 0 <= i < n ==> Acceptable(c, accepts, parent, fs[..n][i])) && Acceptable(c, accepts, parent, fs[n]);
    }
  }

  ghost predicate StablePayloads(accepts: Payloads) {
    forall n, p :: accepts(n, p).Some? ==> accepts(n, accepts(n, p).value) == accepts(n, p)
  }

  lemma StableOne(c: Catalog, accepts: Payloads, parent: Task, f: Followup)
    requires CatalogOk(c) && StablePayloads(accepts) && NormalizeOne(c, accepts, parent, f).Ok?
    ensures var n := NormalizeOne(c, accepts, parent, f); NormalizeOne(c, accepts, parent, n.value) == n
  {
    hide Declares;
    var n := NormalizeOne(c, accepts, parent, f).value;
    NormalizeOneIsNormal(c, accepts, parent, f);
    assert Names(c.canonical[n.jobType], n.jobType);
  }

  /** Normalizing twice changes nothing more, when payload validation is stable on what it returned. */
  lemma {:induction false} NormalizeIsStable(c: Catalog, accepts: Payloads, parent: Task, fs: seq<Followup>)
    requires CatalogOk(c) && StablePayloads(accepts) && NormalizeAll(c, accepts, parent, fs).Ok?
    ensures NormalizeAll(c, accepts, parent, NormalizeAll(c, accepts, parent, fs).value) == NormalizeAll(c, accepts, parent, fs)
  {
    hide CatalogOk, StablePayloads, NormalizeOne;
    if fs != [] {
      var n := |fs| - 1;
      NormalizeIsStable(c, accepts, parent, fs[..n]);
      var done, f := NormalizeAll(c, accepts, parent, fs[..n]).value, NormalizeOne(c, accepts, parent, fs[n]).value;
      StableOne(c, accepts, parent, fs[n]);
      assert (done + [f])[..|done + [f]| - 1] == done;
    }
  }

  /** The two dictionaries grow independently. */
  lemma AddedParts(c: map<string, Task>, l: map<string, Task>, t: Task)
    ensures Added(Catalog(c, l), t) == Catalog(c[t.name := t], Added(Catalog(map[], l), t).lookup)
  {
  }

  class TaskRegistry {
    var canonical: map<string, Task>
    var lookup: map<string, Task>

    ghost function Contents(): Catalog
      reads this
    {
      Catalog(canonical, lookup)
    }

    ghost predicate Valid()
      reads this
    {
      CatalogOk(Contents())
    }

    constructor ()
      ensures Valid() && Contents() == Catalog(map[], map[])
    {
      canonical, lookup := map[], map[];
    }

    /** All tasks or none: the dictionaries are replaced only when every task found its names free. */
    method RegisterMany(tasks: seq<Task>) returns (ok: bool)
      requires Valid() && forall i :: 0 <= i < |tasks| ==> ValidTask(tasks[i])
      modifies this
      ensures Valid() && (ok <==> Unclaimed(old(Contents()), tasks))
      ensures ok ==> AddAll(old(Contents()), tasks) == Some(Contents())
      ensures !ok ==> Contents() == old(Contents())
    {
      hide CatalogOk, Extended, Unclaimed, Added, ValidTask, Collides;
      AddAllIff(Contents(), tasks);
      var c, l := canonical, lookup;
      var k := 0;
      while k < |tasks|
        invariant k <= |tasks| && Contents() == old(Contents())
        invariant AddAll(Contents(), tasks[..k]) == Some(Catalog(c, l))
      {
        var t := tasks[k];
        assert tasks[..k + 1][..k] == tasks[..k];
        if Collides(Catalog(c, l), t) {
          AddAllStops(Contents(), tasks, k + 1);
          return false;
        }
        AddedParts(c, l, t);
        c := c[t.name := t];
        l := AddNames(l, t);
        k := k + 1;
      }
      assert tasks[..k] == tasks;
      canonical, lookup := c, l;
      ok := true;
    }

    static method AddNames(l: map<string, Task>, t: Task) returns (m: map<string, Task>)
      ensures m == Added(Catalog(map[], l), t).lookup
    {
      m := l[t.name := t];
      var i := 0;
      while i < |t.aliases|
        invariant i <= |t.aliases|
        invariant m.Keys == l.Keys + {t.name} + Elements(t.aliases[..i])
        invariant forall key :: key in m ==> m[key] == if key == t.name || key in t.aliases[..i] then t else l[key]
      {
        m := m[t.aliases[i] := t];
        assert t.aliases[..i + 1] == t.aliases[..i] + [t.aliases[i]];
        i := i + 1;
      }
      assert t.aliases[..i] == t.aliases;
    }

    /** Rejects incomplete declarations before a worker claims work. */
    method ValidateFollowupGraph() returns (ok: bool)
      ensures ok <==> GraphOk(Contents())
    {
      var left := canonical.Keys;
      while left != {}
        invariant left <= canonical.Keys
        invariant forall n :: n in canonical.Keys - left ==> ParentOk(Contents(), canonical[n])
        decreases left
      {
        var n :| n in left;
        var good := ValidateParent(canonical[n]);
        if !good {
          return false;
        }
        left := left - {n};
      }
      ok := true;
    }

    method ValidateParent(parent: Task) returns (ok: bool)
      ensures ok <==> ParentOk(Contents(), parent)
    {
      var identities: set<(string, string)> := {};
      var k := 0;
      while k < |parent.targets|
        invariant k <= |parent.targets|
        invariant forall i :: 0 <= i < k ==> TargetOk(Contents(), parent.targets[i])
        invariant forall i, j :: 0 <= i < j < k ==> Identity(Contents(), parent.targets[i]) != Identity(Contents(), parent.targets[j])
        invariant forall id :: id in identities <==> exists i :: 0 <= i < k && Identity(Contents(), parent.targets[i]) == id
      {
        var t := parent.targets[k];
        if t.jobType !in lookup || lookup[t.jobType].queue != t.queue {
          return false;
        }
        var id := (t.queue, lookup[t.jobType].name);
        if id in identities {
          return false;
        }
        identities := identities + {id};
        k := k + 1;
      }
      ok := true;
    }

    method NormalizeFollowups(accepts: Payloads, parent: Task, fs: seq<Followup>) returns (r: Result<seq<Followup>, Error>)
      ensures r == Normalize(Contents(), accepts, parent, fs)
    {
      if !DeclarationsOk(Catalog(canonical, lookup), parent) {
        return Err(Config("followup targets"));
      }
      var normalized: seq<Followup> := [];
      var k := 0;
      while k < |fs|
        invariant k <= |fs| && NormalizeAll(Contents(), accepts, parent, fs[..k]) == Ok(normalized)
      {
        assert fs[..k + 1][..k] == fs[..k];
        var one := NormalizeOne(Catalog(canonical, lookup), accepts, parent, fs[k]);
        if one.Err? {
          NormalizeStops(Contents(), accepts, parent, fs, k + 1);
          return Err(one.error);
        }
        normalized := normalized + [one.value];
        k := k + 1;
      }
      assert fs[..k] == fs;
      r := Ok(normalized);
    }
  }
}
