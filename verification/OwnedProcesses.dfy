/** Which Windows processes belong to a project, and stopping them. Creation times are fixed-width digit
    strings, compared here as the numbers they spell; whether a process is the project's own PHP server is a
    parameter. */
module OwnedProcesses {
  import opened Collections

  /** A process is the same only with the same creation time: identifiers are reused. */
  datatype Identity = Identity(pid: int, created: int)

  datatype Process = Process(id: Identity, parentPid: int, name: string, commandLine: Option<string>)

  type Recognizer = Process -> bool

  /** The parent has the right identifier and is not younger than its child. */
  predicate Begets(parent: Identity, child: Process) {
    parent.pid == child.parentPid && parent.created <= child.id.created
  }

  predicate Seed(p: Process, seeds: set<Identity>, server: Recognizer) {
    p.id in seeds || server(p)
  }

  /** A line of descent through the listing that starts at a seed. */
  ghost predicate Line(all: set<Process>, seeds: set<Identity>, server: Recognizer, line: seq<Process>) {
    && line != [] && (forall p | p in line :: p in all) && Seed(line[0], seeds, server)
    && forall k | 0 < k < |line| :: Begets(line[k - 1].id, line[k])
  }

  ghost predicate Descends(all: set<Process>, seeds: set<Identity>, server: Recognizer, id: Identity) {
    exists line: seq<Process> :: Line(all, seeds, server, line) && line[|line| - 1].id == id
  }

  /** The identities that belong to the project, given what the system lists. */
  ghost function Owned(all: set<Process>, seeds: set<Identity>, server: Recognizer): set<Identity> {
    set p | p in all && Descends(all, seeds, server, p.id) :: p.id
  }

  ghost predicate Closed(all: set<Process>, seeds: set<Identity>, server: Recognizer, s: set<Identity>) {
    && (forall p | p in all :: Seed(p, seeds, server) ==> p.id in s)
    && forall p, parent | p in all && parent in s :: Begets(parent, p) ==> p.id in s
  }

  lemma SeedDescends(all: set<Process>, seeds: set<Identity>, server: Recognizer, p: Process)
    requires p in all && Seed(p, seeds, server)
    ensures p.id in Owned(all, seeds, server)
  {
    assert Line(all, seeds, server, [p]);
    assert Descends(all, seeds, server, p.id);
  }

  lemma ChildDescends(all: set<Process>, seeds: set<Identity>, server: Recognizer, parent: Identity, p: Process)
    requires p in all && parent in Owned(all, seeds, server) && Begets(parent, p)
    ensures p.id in Owned(all, seeds, server)
  {
    var line: seq<Process> :| Line(all, seeds, server, line) && line[|line| - 1].id == parent;
    var longer := line + [p];
    forall k | 0 < k < |longer|
      ensures Begets(longer[k - 1].id, longer[k])
    {
      if k < |line| { assert Begets(line[k - 1].id, line[k]); }
    }
    assert Line(all, seeds, server, longer);
    assert Descends(all, seeds, server, p.id);
  }

  lemma {:induction false} LineStaysIn(
    all: set<Process>, seeds: set<Identity>, server: Recognizer, line: seq<Process>, s: set<Identity>)
    requires Line(all, seeds, server, line) && Closed(all, seeds, server, s)
    ensures line[|line| - 1].id in s
    decreases |line|
  {
    var p := line[|line| - 1];
    assert p in all;
    if |line| > 1 {
      var front := line[..|line| - 1];
      assert Line(all, seeds, server, front);
      LineStaysIn(all, seeds, server, front, s);
      assert Begets(line[|line| - 2].id, p);
    } else {
      assert p == line[0];
    }
  }

  /** Descent is the least set that holds the seeds and, with a process, its listed children. */
  lemma OwnedIsLeastClosed(all: set<Process>, seeds: set<Identity>, server: Recognizer, s: set<Identity>)
    ensures Closed(all, seeds, server, Owned(all, seeds, server))
    ensures Closed(all, seeds, server, s) ==> Owned(all, seeds, server) <= s
  {
    forall p | p in all && Seed(p, seeds, server) {
      SeedDescends(all, seeds, server, p);
    }
    forall p, parent | p in all && parent in Owned(all, seeds, server) && Begets(parent, p)
      ensures p.id in Owned(all, seeds, server)
    {
      ChildDescends(all, seeds, server, parent, p);
    }
    if Closed(all, seeds, server, s) {
      forall id | id in Owned(all, seeds, server)
        ensures id in s
      {
        var line: seq<Process> :| Line(all, seeds, server, line) && line[|line| - 1].id == id;
        LineStaysIn(all, seeds, server, line, s);
      }
    }
  }

  /** Said of the listing: a listed process belongs to the project when it is named, when it is recognised, or when
      the project has a process with its parent's identifier that was not created after it; and no other does. */
  lemma OwnedByDescent(all: set<Process>, seeds: set<Identity>, server: Recognizer, p: Process)
    requires p in all
    ensures p.id in seeds || server(p) ==> p.id in Owned(all, seeds, server)
    ensures (exists parent :: parent in Owned(all, seeds, server) && parent.pid == p.parentPid && parent.created <= p.id.created) ==>
              p.id in Owned(all, seeds, server)
    ensures p.id in Owned(all, seeds, server) ==>
              exists q | q in all && q.id == p.id ::
                q.id in seeds || server(q) ||
                exists parent :: parent in Owned(all, seeds, server) && parent.pid == q.parentPid && parent.created <= q.id.created
  {
    var owned := Owned(all, seeds, server);
    if p.id in seeds || server(p) { SeedDescends(all, seeds, server, p); }
    if parent :| parent in owned && parent.pid == p.parentPid && parent.created <= p.id.created {
      ChildDescends(all, seeds, server, parent, p);
    }
    if p.id in owned {
      var line: seq<Process> :| Line(all, seeds, server, line) && line[|line| - 1].id == p.id;
      var q := line[|line| - 1];
      assert q in line && q in all;
      if |line| > 1 {
        var front := line[..|line| - 1];
        assert Line(all, seeds, server, front);
        assert line[|line| - 2] in line && Descends(all, seeds, server, line[|line| - 2].id);
        assert Begets(line[|line| - 2].id, q);
      } else {
        assert Seed(q, seeds, server);
      }
    }
  }

  function Keep(all: set<Process>, ids: set<Identity>): set<Process> {
    set p | p in all && p.id in ids
  }

  /** Asking again, with the answer as the seeds, or of the answer alone, gives the same answer. */
  lemma OwnedIsIdempotent(all: set<Process>, seeds: set<Identity>, server: Recognizer)
    ensures var owned := Owned(all, seeds, server);
      && Owned(all, owned, server) == owned
      && Owned(Keep(all, owned), seeds, server) == owned
  {
    var owned := Owned(all, seeds, server);
    var kept := Keep(all, owned);
    var again := Owned(kept, seeds, server);
    OwnedIsLeastClosed(all, seeds, server, again);
    OwnedIsLeastClosed(all, owned, server, owned);
    OwnedIsLeastClosed(kept, seeds, server, owned);
    forall id | id in owned
      ensures id in Owned(all, owned, server)
    {
      var p :| p in all && p.id == id;
      SeedDescends(all, owned, server, p);
    }
    assert Closed(all, seeds, server, again) by {
      forall p | p in all && Seed(p, seeds, server)
        ensures p.id in again
      {
        assert p in kept;
      }
      forall p, parent | p in all && parent in again && Begets(parent, p)
        ensures p.id in again
      {
        ChildDescends(all, seeds, server, parent, p);
        assert p in kept;
      }
    }
  }

  /** More seeds, more processes. */
  lemma OwnedGrowsWithSeeds(all: set<Process>, seeds: set<Identity>, more: set<Identity>, server: Recognizer)
    requires seeds <= more
    ensures Owned(all, seeds, server) <= Owned(all, more, server)
  {
    OwnedIsLeastClosed(all, more, server, {});
    OwnedIsLeastClosed(all, seeds, server, Owned(all, more, server));
  }

  function Elements(all: seq<Process>): set<Process> {
    set p | p in all
  }

  type Selection = map<Identity, Process>

  /** Each selected process is listed, under its own identity. */
  ghost predicate Genuine(all: seq<Process>, selected: Selection) {
    forall id | id in selected :: selected[id] in all && selected[id].id == id
  }

  /** What has been selected is listed and belongs to the project. */
  ghost predicate Sound(all: seq<Process>, seeds: set<Identity>, server: Recognizer, selected: Selection) {
    Genuine(all, selected) && selected.Keys <= Owned(Elements(all), seeds, server)
  }

  lemma SelectingSeedIsSound(all: seq<Process>, seeds: set<Identity>, server: Recognizer, selected: Selection, p: Process)
    requires Sound(all, seeds, server, selected) && p in all && Seed(p, seeds, server)
    ensures Sound(all, seeds, server, selected[p.id := p])
  {
    SeedDescends(Elements(all), seeds, server, p);
  }

  lemma SelectingChildIsSound(all: seq<Process>, seeds: set<Identity>, server: Recognizer, selected: Selection, p: Process)
    requires Sound(all, seeds, server, selected) && p in all && HasParent(selected, p)
    ensures Sound(all, seeds, server, selected[p.id := p])
  {
    var id :| id in selected && Begets(selected[id].id, p);
    ChildDescends(Elements(all), seeds, server, id, p);
  }

  ghost predicate HasSeeds(listed: seq<Process>, seeds: set<Identity>, server: Recognizer, selected: Selection) {
    forall p | p in listed :: Seed(p, seeds, server) ==> p.id in selected
  }

  method SelectSeeds(all: seq<Process>, seeds: set<Identity>, server: Recognizer) returns (selected: Selection)
    ensures Sound(all, seeds, server, selected) && HasSeeds(all, seeds, server, selected)
  {
    selected := map[];
    for n := 0 to |all|
      invariant Sound(all, seeds, server, selected) && HasSeeds(all[..n], seeds, server, selected)
    {
      hide Sound;
      var p := all[n];
      assert all[..n + 1] == all[..n] + [p];
      if p.id in seeds || server(p) {
        SelectingSeedIsSound(all, seeds, server, selected, p);
        selected := selected[p.id := p];
      }
    }
    assert all[..|all|] == all;
  }

  predicate HasParent(selected: Selection, p: Process) {
    exists id | id in selected :: Begets(selected[id].id, p)
  }

  ghost predicate HasChildren(listed: seq<Process>, selected: Selection) {
    forall p | p in listed :: HasParent(selected, p) ==> p.id in selected
  }

  /** One pass over the listing: adds the children of what is selected. */
  method SelectChildren(all: seq<Process>, seeds: set<Identity>, server: Recognizer, before: Selection)
    returns (selected: Selection, changed: bool)
    requires Sound(all, seeds, server, before)
    ensures Sound(all, seeds, server, selected)
    ensures if changed then before.Keys < selected.Keys else selected == before && HasChildren(all, before)
  {
    hide Sound, HasParent;
    selected, changed := before, false;
    for n := 0 to |all|
      invariant Sound(all, seeds, server, selected)
      invariant if changed then before.Keys < selected.Keys else selected == before && HasChildren(all[..n], before)
    {
      var p := all[n];
      assert all[..n + 1] == all[..n] + [p];
      if p.id !in selected && HasParent(selected, p) {
        SelectingChildIsSound(all, seeds, server, selected, p);
        selected := selected[p.id := p];
        changed := true;
      }
    }
    assert all[..|all|] == all;
  }

  /** The processes of a project: passes over the listing until one adds nothing. */
  method OwnedProjectProcesses(all: seq<Process>, seeds: set<Identity>, server: Recognizer) returns (selected: Selection)
    ensures Genuine(all, selected)
    ensures selected.Keys == Owned(Elements(all), seeds, server)
  {
    selected := SelectSeeds(all, seeds, server);
    ghost var owned, first := Owned(Elements(all), seeds, server), selected;
    var changed := true;
    while changed
      invariant Sound(all, seeds, server, selected) && first.Keys <= selected.Keys <= owned
      invariant !changed ==> HasChildren(all, selected)
      decreases |owned - selected.Keys|, changed
    {
      hide HasParent, HasChildren, HasSeeds, Owned;
      ghost var before := selected.Keys;
      selected, changed := SelectChildren(all, seeds, server, selected);
      if changed { SmallerRest(owned, before, selected.Keys); }
    }
    NothingLeftToSelect(all, seeds, server, first, selected);
  }

  lemma NothingLeftToSelect(all: seq<Process>, seeds: set<Identity>, server: Recognizer, first: Selection, selected: Selection)
    requires Sound(all, seeds, server, selected) && HasChildren(all, selected)
    requires HasSeeds(all, seeds, server, first) && first.Keys <= selected.Keys
    ensures Genuine(all, selected) && selected.Keys == Owned(Elements(all), seeds, server)
  {
    hide Owned;
    forall p, parent | p in Elements(all) && parent in selected.Keys && Begets(parent, p)
      ensures p.id in selected.Keys
    {
      assert HasParent(selected, p);
    }
    OwnedIsLeastClosed(Elements(all), seeds, server, selected.Keys);
  }

  lemma SmallerRest(whole: set<Identity>, a: set<Identity>, b: set<Identity>)
    requires a < b <= whole
    ensures |whole - b| < |whole - a|
  {
    var x :| x in b && x !in a;
    assert whole - b <= (whole - a) - {x};
    SubsetIsSmaller(whole - b, (whole - a) - {x});
  }

  // ---- Capturing and stopping ----

  const LARGEST_INTEGER := 0x1F_FFFF_FFFF_FFFF

  datatype Snapshot = Snapshot(processes: Selection, laravel: bool)

  predicate ValidPid(pid: int, own: int) {
    1 <= pid <= LARGEST_INTEGER && pid != own
  }

  /** The recogniser only counts for Laravel projects. */
  function For(laravel: bool, server: Recognizer): Recognizer {
    (p: Process) => laravel && server(p)
  }

  function WithPids(all: seq<Process>, pids: seq<int>): set<Identity> {
    set p | p in all && p.id.pid in pids :: p.id
  }

  /** Said of the listing: what belongs to the captured processes are those with the given identifiers, in a Laravel
      project the recognised ones, and their descendants. */
  lemma CapturedByDescent(all: seq<Process>, pids: seq<int>, laravel: bool, server: Recognizer, p: Process)
    requires p in all
    ensures var captured := Owned(Elements(all), WithPids(all, pids), For(laravel, server));
      && (p.id.pid in pids || (laravel && server(p)) ==> p.id in captured)
      && ((exists parent :: parent in captured && parent.pid == p.parentPid && parent.created <= p.id.created) ==>
            p.id in captured)
      && (p.id in captured ==>
            exists q | q in all && q.id == p.id ::
              q.id.pid in pids || (laravel && server(q)) ||
              exists parent :: parent in captured && parent.pid == q.parentPid && parent.created <= q.id.created)
  {
    assert p.id.pid in pids ==> p.id in WithPids(all, pids);
    hide Owned;
    OwnedByDescent(Elements(all), WithPids(all, pids), For(laravel, server), p);
  }

  /** Captures the processes with the given identifiers, and what belongs to them. */
  method CaptureProjectProcesses(all: seq<Process>, pids: seq<int>, own: int, laravel: bool, server: Recognizer)
    returns (snapshot: Option<Snapshot>)
    ensures snapshot.None? <==> exists pid | pid in pids :: pid < 1 || pid >= 0x20_0000_0000_0000 || pid == own
    ensures snapshot.Some? ==> snapshot.value.laravel == laravel && Genuine(all, snapshot.value.processes)
    ensures snapshot.Some? ==>
      snapshot.value.processes.Keys == Owned(Elements(all), WithPids(all, pids), For(laravel, server))
  {
    if exists pid | pid in pids :: !ValidPid(pid, own) { return None; }
    var owned := OwnedProjectProcesses(all, WithPids(all, pids), For(laravel, server));
    return Some(Snapshot(owned, laravel));
  }

  /** What the system showed, and what it was asked to stop, in order. */
  class ProcessAccess {
    ghost var listings: seq<seq<Process>>
    ghost var stops: seq<set<Identity>>
    /** Whether the system could not be asked. */
    ghost var failed: bool

    constructor ()
      ensures listings == [] && stops == [] && !failed
    {
      listings, stops, failed := [], [], false;
    }

    /** Anything may have started or ended since the last listing. */
    method List() returns (all: Option<seq<Process>>)
      modifies this
      ensures stops == old(stops) && failed == (old(failed) || all.None?)
      ensures listings == if all.Some? then old(listings) + [all.value] else old(listings)
    {
      var fails: bool := *;
      if fails {
        failed := true;
        return None;
      }
      var now: seq<Process> := *;
      all := Some(now);
      listings := listings + [now];
    }

    method Stop(processes: Selection) returns (ok: bool)
      modifies this
      ensures listings == old(listings) && stops == old(stops) + [processes.Keys] && failed == (old(failed) || !ok)
    {
      ok := *;
      if !ok { failed := true; }
      stops := stops + [processes.Keys];
    }
  }

  /** The processes known before the next round: those of the snapshot, and all that were to be stopped. */
  function Known(snapshot: set<Identity>, stops: seq<set<Identity>>): set<Identity> {
    if stops == [] then snapshot else Known(snapshot, stops[..|stops| - 1]) + stops[|stops| - 1]
  }

  /** Each round stops exactly what then belongs to the known processes. */
  ghost predicate StopsOwned(snapshot: set<Identity>, listings: seq<seq<Process>>, stops: seq<set<Identity>>, server: Recognizer)
  {
    && |stops| <= |listings|
    && forall k | 0 <= k < |stops| ::
         stops[k] == Owned(Elements(listings[k]), Known(snapshot, stops[..k]), server) && stops[k] != {}
  }

  datatype Stopped = NothingToDo | Verified | StillHeld(remaining: set<Identity>) | AccessFailed

  const ATTEMPTS := 4

  /** What belongs to the known processes according to the last listing. */
  ghost function StillOwned(snapshot: Snapshot, listings: seq<seq<Process>>, stops: seq<set<Identity>>, server: Recognizer)
    : set<Identity>
    requires listings != []
  {
    Owned(Elements(listings[|listings| - 1]), Known(snapshot.processes.Keys, stops), For(snapshot.laravel, server))
  }

  /** Stops what is left of a project's processes. It ends well only after a listing that shows none. */
  method StopProjectProcesses(snapshot: Snapshot, access: ProcessAccess, server: Recognizer) returns (outcome: Stopped)
    requires access.listings == [] && access.stops == [] && !access.failed
    modifies access
    ensures StopsOwned(snapshot.processes.Keys, access.listings, access.stops, For(snapshot.laravel, server))
    ensures outcome.NothingToDo? <==> snapshot.processes == map[] && !snapshot.laravel
    ensures outcome.NothingToDo? ==> access.listings == []
    ensures outcome.Verified? || outcome.StillHeld? ==> |access.listings| == |access.stops| + 1
    ensures outcome.Verified? ==> StillOwned(snapshot, access.listings, access.stops, server) == {}
    ensures outcome.StillHeld? ==> |access.stops| == ATTEMPTS - 1 && outcome.remaining != {}
    ensures outcome.StillHeld? ==> outcome.remaining == StillOwned(snapshot, access.listings, access.stops, server)
    ensures outcome.AccessFailed? <==> access.failed
    ensures |access.stops| < ATTEMPTS
  {
    NothingStopped(snapshot.processes.Keys, For(snapshot.laravel, server));
    if snapshot.processes == map[] && !snapshot.laravel { return NothingToDo; }
    hide Owned, Known, StopsOwned;
    var recognise := For(snapshot.laravel, server);
    var known := snapshot.processes.Keys;
    var attempt := 0;
    while true
      invariant |access.listings| == |access.stops| == attempt < ATTEMPTS && !access.failed
      invariant known == Known(snapshot.processes.Keys, access.stops)
      invariant StopsOwned(snapshot.processes.Keys, access.listings, access.stops, recognise)
      decreases ATTEMPTS - attempt
    {
      ghost var shown, stopped := access.listings, access.stops;
      var all := access.List();
      if all.None? { return AccessFailed; }
      ListingExtends(snapshot.processes.Keys, shown, stopped, all.value, recognise);
      var remaining := OwnedProjectProcesses(all.value, known, recognise);
      if remaining == map[] { return Verified; }
      if attempt == ATTEMPTS - 1 { return StillHeld(remaining.Keys); }
      known := known + remaining.Keys;
      var ok := access.Stop(remaining);
      StopExtends(snapshot.processes.Keys, access.listings, stopped, remaining.Keys, recognise);
      if !ok { return AccessFailed; }
      attempt := attempt + 1;
    }
  }

  lemma NothingStopped(snapshot: set<Identity>, server: Recognizer)
    ensures Known(snapshot, []) == snapshot && StopsOwned(snapshot, [], [], server)
  {
  }

  lemma ListingExtends(snapshot: set<Identity>, listings: seq<seq<Process>>, stops: seq<set<Identity>>, all: seq<Process>,
                       server: Recognizer)
    requires StopsOwned(snapshot, listings, stops, server)
    ensures StopsOwned(snapshot, listings + [all], stops, server)
  {
    hide Owned;
  }

  lemma StopExtends(snapshot: set<Identity>, listings: seq<seq<Process>>, stops: seq<set<Identity>>, more: set<Identity>,
                    server: Recognizer)
    requires |listings| == |stops| + 1 && StopsOwned(snapshot, listings, stops, server)
    requires more == Owned(Elements(listings[|stops|]), Known(snapshot, stops), server) != {}
    ensures StopsOwned(snapshot, listings, stops + [more], server)
    ensures Known(snapshot, stops + [more]) == Known(snapshot, stops) + more
  {
    hide Owned;
    var longer := stops + [more];
    assert longer[..|longer| - 1] == stops;
    forall k | 0 <= k < |longer|
      ensures longer[k] == Owned(Elements(listings[k]), Known(snapshot, longer[..k]), server) && longer[k] != {}
    {
      assert longer[..k] == stops[..k];
      if k == |stops| { assert stops[..k] == stops; }
    }
  }

  /** Nothing unrelated is stopped: any set of identities that holds the snapshot, every recognised server,
      and with a process all the children it is ever listed with, holds everything that is stopped. */
  lemma {:induction false} OnlyRelativesAreStopped(
    snapshot: set<Identity>, listings: seq<seq<Process>>, stops: seq<set<Identity>>, server: Recognizer, family: set<Identity>)
    requires StopsOwned(snapshot, listings, stops, server) && snapshot <= family
    requires forall all | all in listings :: Closed(Elements(all), {}, server, family)
    ensures Known(snapshot, stops) <= family
  {
    if stops != [] {
      var n := |stops| - 1;
      var front := stops[..n];
      FewerStops(snapshot, listings, stops, server);
      OnlyRelativesAreStopped(snapshot, listings, front, server, family);
      RoundStaysIn(Elements(listings[n]), Known(snapshot, front), server, family);
    }
  }

  lemma FewerStops(snapshot: set<Identity>, listings: seq<seq<Process>>, stops: seq<set<Identity>>, server: Recognizer)
    requires StopsOwned(snapshot, listings, stops, server) && stops != []
    ensures StopsOwned(snapshot, listings, stops[..|stops| - 1], server)
  {
    hide Owned;
    var front := stops[..|stops| - 1];
    forall k | 0 <= k < |front|
      ensures front[k] == Owned(Elements(listings[k]), Known(snapshot, front[..k]), server) && front[k] != {}
    {
      assert front[..k] == stops[..k];
    }
  }

  lemma RoundStaysIn(all: set<Process>, known: set<Identity>, server: Recognizer, family: set<Identity>)
    requires Closed(all, {}, server, family) && known <= family
    ensures Owned(all, known, server) <= family
  {
    hide Owned;
    OwnedIsLeastClosed(all, known, server, family);
  }
}
