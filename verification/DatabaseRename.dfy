/** Renaming a database on its server together with the manager's links to it: two databases, two
    transactions, no common commit. Statements can fail, commits can take effect without an answer or
    after it was given up on, and the manager can crash between any two statements. */
module DatabaseRename {
  import opened Collections

  type Name = string
  type Id = string

  datatype Status = Running | Succeeded | Failed | NeedsReview

  /** What the manager's database records: a rename, or a link another transaction made or removed. */
  datatype Entry =
    | Rename(before: Name, after: Name, services: set<Id>, status: Status)
    | Linked(id: Id, name: Name)
    | Unlinked(id: Id)

  type Links = map<Id, Name>

  predicate Pending(e: Entry) {
    e.Rename? && (e.status.Running? || e.status.NeedsReview?)
  }

  predicate Blocked(log: seq<Entry>) {
    exists e | e in log :: Pending(e)
  }

  function RenamedIn(databases: set<Name>, before: Name, after: Name): set<Name> {
    databases - {before} + {after}
  }

  function Relinked(links: Links, services: set<Id>, before: Name, after: Name): Links {
    map id | id in links :: if id in services && links[id] == before then after else links[id]
  }

  // ---- What the record says each side should look like ----

  /** Whether an entry is a rename that took effect; `done` answers for the one still pending. */
  predicate Counts(e: Entry, done: bool) {
    e.Rename? && (e.status.Succeeded? || (Pending(e) && done))
  }

  function ServerEffect(databases: set<Name>, e: Entry, done: bool): set<Name> {
    if Counts(e, done) then RenamedIn(databases, e.before, e.after) else databases
  }

  function LinkEffect(links: Links, e: Entry, done: bool): Links {
    match e
    case Rename(before, after, services, _) => if Counts(e, done) then Relinked(links, services, before, after) else links
    case Linked(id, name) => links[id := name]
    case Unlinked(id) => links - {id}
  }

  function ServerSide(databases: set<Name>, log: seq<Entry>, done: bool): set<Name> {
    if log == [] then databases
    else ServerEffect(ServerSide(databases, log[..|log| - 1], done), log[|log| - 1], done)
  }

  function LinkSide(links: Links, log: seq<Entry>, done: bool): Links {
    if log == [] then links
    else LinkEffect(LinkSide(links, log[..|log| - 1], done), log[|log| - 1], done)
  }

  /** The same entries except for the status of renames, none of which changes what took effect. */
  ghost predicate SameEffect(a: seq<Entry>, done: bool, b: seq<Entry>, done': bool) {
    && |a| == |b|
    && forall k | 0 <= k < |a| :: SameEntry(a[k], done, b[k], done')
  }

  predicate SameEntry(a: Entry, done: bool, b: Entry, done': bool) {
    if a.Rename? then
      b.Rename? && a.(status := Running) == b.(status := Running) && Counts(a, done) == Counts(b, done')
    else a == b
  }

  lemma {:induction false} SameEffectSameSides(
    databases: set<Name>, links: Links, a: seq<Entry>, done: bool, b: seq<Entry>, done': bool)
    requires SameEffect(a, done, b, done')
    ensures ServerSide(databases, a, done) == ServerSide(databases, b, done')
    ensures LinkSide(links, a, done) == LinkSide(links, b, done')
  {
    if a != [] {
      var n := |a| - 1;
      SameEffectSameSides(databases, links, a[..n], done, b[..n], done');
      assert SameEntry(a[n], done, b[n], done');
    }
  }

  /** The entry at `i` is pending and the entries after it are other transactions' links. */
  ghost predicate PendingAt(log: seq<Entry>, i: nat) {
    i < |log| && Pending(log[i]) && forall k | i < k < |log| :: !log[k].Rename?
  }

  lemma {:induction false} PendingChangesTheServer(databases: set<Name>, log: seq<Entry>, i: nat)
    requires PendingAt(log, i) && forall k | 0 <= k < i :: !Pending(log[k])
    ensures ServerSide(databases, log, true) == RenamedIn(ServerSide(databases, log, false), log[i].before, log[i].after)
  {
    var n := |log| - 1;
    if i < n {
      PendingChangesTheServer(databases, log[..n], i);
    } else {
      SameEffectSameSides(databases, map[], log[..n], true, log[..n], false);
    }
  }

  /** None of the links made after `i` belongs to the services of the rename. */
  ghost predicate Apart(log: seq<Entry>, i: nat, services: set<Id>) {
    forall k | i < k < |log| :: log[k].Linked? ==> log[k].id !in services
  }

  lemma {:induction false} PendingChangesTheLinks(links: Links, log: seq<Entry>, i: nat)
    requires PendingAt(log, i) && Apart(log, i, log[i].services) && forall k | 0 <= k < i :: !Pending(log[k])
    ensures LinkSide(links, log, true) ==
      Relinked(LinkSide(links, log, false), log[i].services, log[i].before, log[i].after)
  {
    var n := |log| - 1;
    if i < n {
      assert Apart(log[..n], i, log[i].services);
      PendingChangesTheLinks(links, log[..n], i);
      LinkingCommutes(LinkSide(links, log[..n], false), log[n], log[i].services, log[i].before, log[i].after);
    } else {
      SameEffectSameSides({}, links, log[..n], true, log[..n], false);
    }
  }

  lemma LinkingCommutes(links: Links, e: Entry, services: set<Id>, before: Name, after: Name)
    requires !e.Rename? && (e.Linked? ==> e.id !in services)
    ensures LinkEffect(Relinked(links, services, before, after), e, true) ==
      Relinked(LinkEffect(links, e, false), services, before, after)
  {
  }

  // ---- The two databases ----

  /** `late` and `lateLinks` say that a commit was given up on and may still take effect, on the server or in the
      manager. */
  datatype World = World(databases: set<Name>, links: Links, log: seq<Entry>, late: bool, lateLinks: bool)

  /** What is known to have committed of the pending rename, on the server and in the manager. */
  datatype Progress = Progress(server: bool, links: bool)

  ghost predicate OnePending(log: seq<Entry>) {
    forall i, k | 0 <= i < k < |log| :: Pending(log[i]) ==> !log[k].Rename?
  }

  /** The rows of an open commit are locked: links made since belong to other services. */
  ghost predicate HeldApart(log: seq<Entry>) {
    exists i: nat :: PendingAt(log, i) && Apart(log, i, log[i].services)
  }

  lemma HeldMeansBlocked(log: seq<Entry>)
    requires HeldApart(log)
    ensures Blocked(log)
  {
    var i: nat :| PendingAt(log, i) && Apart(log, i, log[i].services);
    assert log[i] in log;
  }

  /** Both sides are what the record says, up to the one rename that is pending. */
  ghost predicate Inv(start: World, w: World, p: Progress) {
    && w.databases == ServerSide(start.databases, w.log, p.server)
    && w.links == LinkSide(start.links, w.log, p.links)
    && OnePending(w.log)
    && (w.late ==> Blocked(w.log) && !p.server)
    && (w.lateLinks ==> HeldApart(w.log) && p == Progress(true, false))
  }

  /** Once no rename is pending, both sides show the same renames: those that succeeded, and none of
      those that failed. */
  lemma SettledSidesAgree(start: World, w: World, p: Progress)
    requires Inv(start, w, p) && !Blocked(w.log)
    ensures forall done :: w.databases == ServerSide(start.databases, w.log, done)
    ensures forall done :: w.links == LinkSide(start.links, w.log, done)
    ensures !w.late && !w.lateLinks
  {
    if HeldApart(w.log) { HeldMeansBlocked(w.log); }
    forall done
      ensures w.databases == ServerSide(start.databases, w.log, done) && w.links == LinkSide(start.links, w.log, done)
    {
      SameEffectSameSides(start.databases, start.links, w.log, p.server, w.log, done);
      SameEffectSameSides(start.databases, start.links, w.log, p.links, w.log, done);
    }
  }

  /** While one is pending, each side shows it completely or not at all, whatever the other shows. */
  lemma PendingSidesAreWhole(start: World, w: World, p: Progress, i: nat)
    requires Inv(start, w, p) && i < |w.log| && Pending(w.log[i])
    ensures w.databases == if p.server
      then RenamedIn(ServerSide(start.databases, w.log, false), w.log[i].before, w.log[i].after)
      else ServerSide(start.databases, w.log, false)
    ensures w.links == LinkSide(start.links, w.log, p.links)
  {
    assert PendingAt(w.log, i);
    PendingElsewhere(w.log, i);
    PendingChangesTheServer(start.databases, w.log, i);
  }

  // ---- Steps of the record ----

  function Settle(w: World, i: nat, status: Status): World
    requires i < |w.log| && w.log[i].Rename?
  {
    w.(log := w.log[i := w.log[i].(status := status)])
  }

  lemma OpeningKeeps(start: World, w: World, p: Progress, e: Entry)
    requires Inv(start, w, p) && !Blocked(w.log) && e.Rename? && e.status.Running?
    ensures Inv(start, w.(log := w.log + [e]), Progress(false, false))
    ensures PendingAt(w.log + [e], |w.log|)
  {
    SettledSidesAgree(start, w, p);
    assert (w.log + [e])[..|w.log|] == w.log;
    assert OnePending(w.log + [e]) by {
      forall i, k | 0 <= i < k < |w.log + [e]|
        ensures Pending((w.log + [e])[i]) ==> !(w.log + [e])[k].Rename?
      {
        assert (w.log + [e])[i] in w.log;
      }
    }
  }

  /** The pending row may be marked failed when nothing committed, and for review at any time. */
  lemma SettlingKeeps(start: World, w: World, p: Progress, i: nat, status: Status)
    requires Inv(start, w, p) && i < |w.log| && Pending(w.log[i]) && !w.lateLinks
    requires match status
             case Running => false
             case NeedsReview => true
             case Failed => p == Progress(false, false) && !w.late
             case Succeeded => p == Progress(true, true)
    ensures Inv(start, Settle(w, i, status), p)
  {
    var after := Settle(w, i, status).log;
    PendingElsewhere(w.log, i);
    assert forall k | 0 <= k < |after| && k != i :: after[k] == w.log[k];
    SameEffectSameSides(start.databases, start.links, w.log, p.server, after, p.server);
    SameEffectSameSides(start.databases, start.links, w.log, p.links, after, p.links);
    if w.late { assert after[i] in after && Pending(after[i]); }
  }

  /** The row at `i` is the last rename. */
  ghost predicate LastRename(log: seq<Entry>, i: nat) {
    i < |log| && log[i].Rename? && forall k | i < k < |log| :: !log[k].Rename?
  }

  /** A rename that succeeded unnoticed is marked for review. */
  lemma ReviewingKeeps(start: World, w: World, p: Progress, i: nat)
    requires Inv(start, w, p) && LastRename(w.log, i) && w.log[i].status.Succeeded? && !Blocked(w.log)
    ensures Inv(start, Settle(w, i, NeedsReview), Progress(true, true))
  {
    if HeldApart(w.log) { HeldMeansBlocked(w.log); }
    hide HeldApart, ServerSide, LinkSide;
    var after := Settle(w, i, NeedsReview).log;
    assert forall k | 0 <= k < |w.log| :: w.log[k] in w.log;
    assert forall k | 0 <= k < |after| && k != i :: after[k] == w.log[k];
    SameEffectSameSides(start.databases, start.links, w.log, p.server, after, true);
    SameEffectSameSides(start.databases, start.links, w.log, p.links, after, true);
  }

  lemma PendingElsewhere(log: seq<Entry>, i: nat)
    requires OnePending(log) && i < |log| && Pending(log[i])
    ensures forall k | 0 <= k < |log| && k != i :: !Pending(log[k])
  {
  }

  /** The server commits. */
  lemma ServerCommitKeeps(start: World, w: World, p: Progress, i: nat)
    requires Inv(start, w, p) && i < |w.log| && Pending(w.log[i]) && !p.server
    ensures Inv(start, w.(databases := RenamedIn(w.databases, w.log[i].before, w.log[i].after), late := false),
                p.(server := true))
  {
    assert PendingAt(w.log, i);
    PendingElsewhere(w.log, i);
    PendingChangesTheServer(start.databases, w.log, i);
  }

  /** The manager commits: its links and the row that says so, together, now or late. */
  lemma ManagerCommitKeeps(start: World, w: World, p: Progress, i: nat)
    requires Inv(start, w, p) && i < |w.log| && Pending(w.log[i]) && p == Progress(true, false)
    requires Apart(w.log, i, w.log[i].services)
    ensures var e := w.log[i];
      Inv(start, Settle(w.(links := Relinked(w.links, e.services, e.before, e.after), lateLinks := false), i, Succeeded),
          Progress(true, true))
  {
    assert PendingAt(w.log, i);
    PendingElsewhere(w.log, i);
    PendingChangesTheLinks(start.links, w.log, i);
    var e := w.log[i];
    var linked := w.(links := Relinked(w.links, e.services, e.before, e.after), lateLinks := false);
    assert Inv(start, linked, Progress(true, true));
    SettlingKeeps(start, linked, Progress(true, true), i, Succeeded);
  }

  /** The link is not of a service whose row a pending rename holds. */
  ghost predicate NotHeld(log: seq<Entry>, e: Entry) {
    e.Linked? ==> forall r | r in log && Pending(r) :: e.id !in r.services
  }

  /** Another transaction makes or removes a link. */
  lemma LinkingKeeps(start: World, w: World, p: Progress, e: Entry)
    requires Inv(start, w, p) && !e.Rename? && (w.lateLinks ==> NotHeld(w.log, e))
    ensures Inv(start, w.(links := LinkEffect(w.links, e, p.links), log := w.log + [e]), p)
  {
    assert (w.log + [e])[..|w.log|] == w.log;
    if w.late {
      var x :| x in w.log && Pending(x);
      assert x in w.log + [e];
    }
    if w.lateLinks {
      var i: nat :| PendingAt(w.log, i) && Apart(w.log, i, w.log[i].services);
      assert w.log[i] in w.log;
      assert PendingAt(w.log + [e], i) && Apart(w.log + [e], i, (w.log + [e])[i].services);
    }
  }

  // ---- Links to databases that exist ----

  ghost predicate LinksAlive(databases: set<Name>, links: Links) {
    forall id | id in links :: links[id] in databases
  }

  /** A rename leaves every link alive exactly when no link outside the reviewed ones named the database:
      one made between the review and the commit keeps the old name. */
  lemma RenameKeepsLinksAliveExactly(databases: set<Name>, links: Links, e: Entry)
    requires LinksAlive(databases, links) && e.Rename? && e.before != e.after
    ensures LinksAlive(RenamedIn(databases, e.before, e.after), Relinked(links, e.services, e.before, e.after))
      <==> (forall id | id in links :: links[id] == e.before ==> id in e.services)
  {
    var after := Relinked(links, e.services, e.before, e.after);
    forall id | id in links
      ensures after[id] in RenamedIn(databases, e.before, e.after) <==> (links[id] == e.before ==> id in e.services)
    {
    }
  }

  lemma SubsetOfSameSize(a: set<Id>, b: set<Id>)
    requires a <= b && |a| == |b|
    ensures a == b
  {
    if x :| x in b && x !in a {
      SubsetIsSmaller(a + {x}, b);
      assert false;
    }
  }

  lemma EveryoneFound(links: Links, services: set<Id>, before: Name)
    ensures (forall id | id in services :: id in links && links[id] == before)
      ==> (set id | id in services && id in links && links[id] == before) == services
  {
  }

  // ---- The operation ----

  /** The statements of the two transactions before they are committed. */
  datatype Work = Begin | Alter | Relink | Record

  const ALL_WORK := [Begin, Alter, Relink, Record]

  /** What became of one statement: it ran, it failed, or the manager crashed. */
  datatype Step = Ran | Broke | Crash

  datatype Answer = Renamed | Refused | Rejected | Uncertain | Crashed

  /** What an attempt to rename leaves behind: nothing; or one more row, after which only other transactions'
      links come. A row marked failed means neither side was renamed, one marked succeeded that both were,
      and the manager's side is never renamed without the server's. */
  ghost predicate Traces(w0: World, w: World, p: Progress, before: Name, after: Name) {
    if |w.log| == |w0.log| then w == w0
    else LastRename(w.log, |w0.log|) && w.log[..|w0.log|] == w0.log && RowTells(w0, w, p, w.log[|w0.log|], before, after)
  }

  ghost predicate RowTells(w0: World, w: World, p: Progress, row: Entry, before: Name, after: Name)
    requires row.Rename?
  {
    && row.before == before && row.after == after
    && w.databases == (if p.server then RenamedIn(w0.databases, before, after) else w0.databases)
    && (p.links ==> p.server)
    && (row.status.Failed? ==> p == Progress(false, false) && !w.late && !w.lateLinks)
    && (row.status.Succeeded? ==> p == Progress(true, true) && !w.late && !w.lateLinks)
  }

  lemma NoOtherPending(log: seq<Entry>, i: nat)
    requires OnePending(log) && LastRename(log, i) && !Pending(log[i])
    ensures !Blocked(log)
  {
    forall k | 0 <= k < |log|
      ensures !Pending(log[k])
    {
    }
  }

  /** What can go wrong: statements fail, the manager crashes, the note on a failed attempt is lost, and others hold
      locks, use the database or make links. */
  datatype Hazards = Hazards(fails: bool, crashes: bool, forgets: bool, others: bool)

  /** The services of the rename are those linked to the database. */
  ghost predicate Named(links: Links, e: Entry)
    requires e.Rename?
  {
    forall id | id in e.services :: id in links && links[id] == e.before
  }

  class Storage {
    /** Where both databases started. */
    ghost const start: World
    const hazards: Hazards
    var databases: set<Name>
    var links: Links
    var log: seq<Entry>
    /** A commit that was given up on may still take effect, on the server or in the manager. */
    var late: bool
    var lateLinks: bool
    ghost var progress: Progress
    /** The statements that have run in the open transactions. */
    ghost var done: seq<Work>

    ghost function Contents(): World
      reads this
    {
      World(databases, links, log, late, lateLinks)
    }

    ghost predicate Valid()
      reads this
    {
      Inv(start, Contents(), progress)
    }

    constructor (d: set<Name>, l: Links, h: Hazards)
      ensures Valid() && start == World(d, l, [], false, false) && Contents() == start && hazards == h
    {
      hazards := h;
      databases, links, log, late, lateLinks := d, l, [], false, false;
      progress, done := Progress(false, false), [];
      start := World(d, l, [], false, false);
    }

    /** Any statement may fail, and the manager may crash at any. */
    method Try() returns (s: Step)
      ensures (s.Broke? ==> hazards.fails) && (s.Crash? ==> hazards.crashes)
    {
      s := Ran;
      if hazards.fails { var broke: bool := *; if broke { s := Broke; } }
      if hazards.crashes { var crash: bool := *; if crash { s := Crash; } }
    }

    method Statement(work: Work) returns (s: Step)
      modifies `done
      ensures done == if s.Ran? then old(done) + [work] else old(done)
      ensures (s.Broke? ==> hazards.fails) && (s.Crash? ==> hazards.crashes)
    {
      s := Try();
      if s.Ran? { done := done + [work]; }
    }

    /** Whether nobody else is in the way. */
    method Admitted() returns (admitted: bool)
      ensures !hazards.others ==> admitted
    {
      admitted := true;
      if hazards.others { admitted := *; }
    }

    /** Another transaction of the manager makes or removes a link. */
    method Link(e: Entry)
      requires Valid() && !e.Rename? && (lateLinks ==> NotHeld(log, e))
      modifies `links, `log
      ensures Valid() && log == old(log) + [e] && links == LinkEffect(old(links), e, progress.links)
    {
      LinkingKeeps(start, Contents(), progress, e);
      links := LinkEffect(links, e, false);
      log := log + [e];
    }

    /** A commit that nobody waits for any more takes effect. */
    method TakeEffect(i: nat)
      requires Valid() && late && i < |log| && Pending(log[i])
      modifies `databases, `late, `progress
      ensures Valid() && !late && databases == RenamedIn(old(databases), log[i].before, log[i].after)
    {
      ServerCommitKeeps(start, Contents(), progress, i);
      databases := RenamedIn(databases, log[i].before, log[i].after);
      late := false;
      progress := progress.(server := true);
    }

    /** So does one of the manager. */
    method LinksTakeEffect(i: nat)
      requires Valid() && lateLinks && i < |log| && Pending(log[i])
      modifies `links, `log, `lateLinks, `progress
      ensures Valid() && !lateLinks && progress == Progress(true, true)
      ensures var e := old(log[i]);
        links == Relinked(old(links), e.services, e.before, e.after) && log == old(log)[i := e.(status := Succeeded)]
    {
      var e := log[i];
      PendingElsewhere(log, i);
      ManagerCommitKeeps(start, Contents(), progress, i);
      links := Relinked(links, e.services, e.before, e.after);
      log := log[i := e.(status := Succeeded)];
      lateLinks := false;
      progress := Progress(true, true);
    }

    /** The review: no rename may be pending, the database must exist, nobody may use it, and the new name
        must be free. Answers the linked services, or nothing when something is in the way. */
    method Review(before: Name, after: Name) returns (services: Option<set<Id>>)
      ensures services.Some? ==> !Blocked(log) && before in databases && after !in databases
      ensures services.Some? ==> services.value == set id | id in links && links[id] == before
      ensures !hazards.others && before in databases && after !in databases && !Blocked(log) ==> services.Some?
    {
      if before !in databases { return None; }
      var linked := set id | id in links && links[id] == before;
      if exists e | e in log :: Pending(e) { return None; }
      var free := Admitted();
      if !free || after in databases { return None; }
      return Some(linked);
    }

    /** Adds the row, outside any transaction. The answer can be lost. */
    method Insert(e: Entry) returns (s: Step)
      requires Valid() && !Blocked(log) && e.Rename? && e.status.Running?
      modifies `log, `progress
      ensures Valid() && (s.Ran? ==> log == old(log) + [e] && progress == Progress(false, false))
      ensures log == old(log) || (log == old(log) + [e] && progress == Progress(false, false))
      ensures (s.Broke? ==> hazards.fails) && (s.Crash? ==> hazards.crashes)
    {
      hide Inv, Blocked;
      var written: bool := *;
      s := Try();
      if s.Ran? || written {
        OpeningKeeps(start, Contents(), progress, e);
        log := log + [e];
        progress := Progress(false, false);
      }
    }

    /** The commit on the server: it may take effect, or not, or only later, whatever the answer. */
    method CommitServer(i: nat) returns (s: Step)
      requires Valid() && i < |log| && Pending(log[i]) && progress == Progress(false, false) && !late && done == ALL_WORK
      modifies `databases, `late, `progress
      ensures Valid() && !progress.links && (s.Ran? ==> progress.server) && (progress.server ==> !late)
      ensures databases == if progress.server then RenamedIn(old(databases), log[i].before, log[i].after) else old(databases)
      ensures (s.Broke? ==> hazards.fails) && (s.Crash? ==> hazards.crashes)
    {
      s := Try();
      var applied: bool := *;
      if s.Ran? || applied {
        ServerCommitKeeps(start, Contents(), progress, i);
        databases := RenamedIn(databases, log[i].before, log[i].after);
        progress := Progress(true, false);
      } else {
        late := *;
        assert log[i] in log;
      }
    }

    /** The commit in the manager: links and row together; it may take effect, or not, or only later. */
    method CommitManager(i: nat) returns (s: Step)
      requires Valid() && PendingAt(log, i) && progress == Progress(true, false) && !late && !lateLinks
      requires Apart(log, i, log[i].services) && done == ALL_WORK
      modifies `links, `log, `lateLinks, `progress
      ensures Valid() && progress.server && (s.Ran? ==> progress.links) && (progress.links ==> !lateLinks)
      ensures var e := old(log[i]);
        if progress.links
        then links == Relinked(old(links), e.services, e.before, e.after) && log == old(log)[i := e.(status := Succeeded)]
        else links == old(links) && log == old(log)
      ensures (s.Broke? ==> hazards.fails) && (s.Crash? ==> hazards.crashes)
    {
      s := Try();
      var applied: bool := *;
      if s.Ran? || applied {
        ManagerCommitKeeps(start, Contents(), progress, i);
        var e := log[i];
        links := Relinked(links, e.services, e.before, e.after);
        log := log[i := e.(status := Succeeded)];
        progress := Progress(true, true);
      } else {
        lateLinks := *;
      }
    }

    /** Other transactions make and remove links while the rename is under way; no link is made twice. */
    method Meanwhile(i: nat)
      requires Valid() && PendingAt(log, i) && i == |log| - 1 && log[i].services <= links.Keys && !lateLinks
      modifies `links, `log
      ensures Valid() && |log| > i && log[..i + 1] == old(log) && PendingAt(log, i) && Apart(log, i, log[i].services)
      ensures forall id | id in links :: id in log[i].services ==> id in old(links) && links[id] == old(links)[id]
      ensures !hazards.others ==> links == old(links)
    {
      var services := log[i].services;
      var n: nat := *;
      if !hazards.others { n := 0; }
      while n > 0
        invariant Valid() && |log| > i && log[..i + 1] == old(log)
        invariant PendingAt(log, i) && Apart(log, i, services) && (!hazards.others ==> n == 0 && links == old(links))
        invariant forall id | id in links :: id in services ==> id in old(links) && links[id] == old(links)[id]
        decreases n
      {
        assert !Unlinked("").Rename?;
        var e: Entry :| !e.Rename? && (e.Linked? ==> e.id !in links && e.id !in services);
        Link(e);
        n := n - 1;
      }
    }

    /** The statements of the two transactions, which nobody sees yet. */
    method Stage(i: nat) returns (s: Step)
      requires Valid() && PendingAt(log, i) && i == |log| - 1 && log[i].status.Running? && !late
      requires progress == Progress(false, false) && log[i].services <= links.Keys && !lateLinks
      modifies `links, `log, `done
      ensures Valid() && PendingAt(log, i) && Apart(log, i, log[i].services) && log[..i + 1] == old(log)
      ensures s.Ran? <==> done == ALL_WORK
      ensures s.Ran? ==> forall id | id in log[i].services :: id in links && links[id] == log[i].before
      ensures !hazards.others ==> links == old(links)
      ensures s.Crash? ==> hazards.crashes
      ensures s.Broke? && !hazards.fails ==> hazards.others || !Named(old(links), old(log[i]))
    {
      hide Inv;
      var row := log[i];
      done := [];
      assert log[..i + 1] == log;
      s := Statement(Begin);
      if !s.Ran? { return; }
      s := Statement(Alter);
      if !s.Ran? { return; }
      Meanwhile(i);
      s := Statement(Relink);
      if !s.Ran? { return; }
      assert log[..i + 1][i] == row;
      var found := set id | id in row.services && id in links && links[id] == row.before;
      if |found| != |row.services| {
        s := Broke;
        EveryoneFound(links, row.services, row.before);
        return;
      }
      SubsetOfSameSize(found, row.services);
      s := Statement(Record);
    }

    /** The two transactions. `attempted` says whether the commit on the server was asked for. */
    method Attempt(i: nat) returns (s: Step, attempted: bool)
      requires Valid() && PendingAt(log, i) && i == |log| - 1 && log[i].status.Running? && !late
      requires progress == Progress(false, false) && log[i].services <= links.Keys && !lateLinks
      modifies `databases, `links, `log, `late, `lateLinks, `progress, `done
      ensures attempted <==> done == ALL_WORK
      ensures s.Ran? ==> attempted
      ensures Valid() && LastRename(log, i) && log[..i] == old(log)[..i]
      ensures log[i].(status := Running) == old(log)[i]
      ensures if progress.links then log[i].status.Succeeded? else log[i].status.Running?
      ensures !attempted ==> databases == old(databases) && progress == Progress(false, false) && !late && !lateLinks
      ensures attempted && !progress.server ==> databases == old(databases)
      ensures progress.server ==> databases == RenamedIn(old(databases), log[i].before, log[i].after)
      ensures (s.Ran? ==> progress == Progress(true, true) && !late) && (progress.links ==> !lateLinks)
      ensures (progress.links ==> progress.server) && (progress.server ==> !late)
      ensures s.Ran? ==> forall id | id in log[i].services :: id in links && links[id] == log[i].after
      ensures s.Ran? && !hazards.others ==> links == Relinked(old(links), log[i].services, log[i].before, log[i].after)
      ensures s.Crash? ==> hazards.crashes
      ensures s.Broke? && !hazards.fails ==> hazards.others || !Named(old(links), old(log[i]))
    {
      hide Inv, Named;
      ghost var row := log[i];
      attempted := false;
      s := Stage(i);
      assert log[..i + 1][i] == row && log[..i + 1][..i] == log[..i];
      if !s.Ran? { return; }
      attempted := true;
      s := CommitServer(i);
      if !s.Ran? { return; }
      s := CommitManager(i);
    }

    /** Notes in the row how the attempt ended. The note itself can get lost, and cannot be written while the
        same session is still committing. */
    method Note(i: nat, attempted: bool) returns (crashed: bool)
      requires Valid() && LastRename(log, i)
      requires if progress.links then log[i].status.Succeeded? && progress.server else log[i].status.Running?
      requires !attempted ==> progress == Progress(false, false) && !late
      requires progress.links ==> !lateLinks
      modifies `log, `progress
      ensures Valid() && progress == old(progress)
      ensures var status := if attempted then NeedsReview else Failed;
        log == old(log) || log == old(log)[i := old(log[i]).(status := status)]
      ensures !hazards.forgets && !lateLinks ==> log[i].status == if attempted then NeedsReview else Failed
      ensures crashed ==> hazards.crashes
    {
      var status := if attempted then NeedsReview else Failed;
      var noted := true;
      if hazards.forgets { noted := *; }
      if noted && !lateLinks {
        if log[i].status.Running? {
          SettlingKeeps(start, Contents(), progress, i, status);
        } else {
          NoOtherPending(log, i);
          ReviewingKeeps(start, Contents(), progress, i);
        }
        log := log[i := log[i].(status := status)];
      }
      crashed := false;
      if hazards.crashes { crashed := *; }
    }

    /** Carries out the rename whose row was just added. */
    method Proceed(i: nat) returns (answer: Answer)
      requires Valid() && PendingAt(log, i) && i == |log| - 1 && log[i].status.Running? && !late
      requires progress == Progress(false, false) && log[i].services <= links.Keys && !lateLinks
      modifies `databases, `links, `log, `late, `lateLinks, `progress, `done
      ensures Valid() && LastRename(log, i) && log[..i] == old(log)[..i]
      ensures log[i].(status := Running) == old(log[i])
      ensures RowTells(old(Contents()), Contents(), progress, log[i], log[i].before, log[i].after)
      ensures !answer.Refused?
      ensures answer.Renamed? ==> log[i].status.Succeeded?
      ensures answer.Renamed? ==> forall id | id in log[i].services :: id in links && links[id] == log[i].after
      ensures answer.Renamed? && !hazards.others ==>
                links == Relinked(old(links), log[i].services, log[i].before, log[i].after)
      ensures answer.Rejected? ==> databases == old(databases) && !late
      ensures answer.Crashed? ==> hazards.crashes
      ensures !hazards.forgets && answer.Rejected? ==> log[i].status.Failed?
      ensures !hazards.forgets && answer.Uncertain? && !lateLinks ==> log[i].status.NeedsReview?
      ensures (answer.Rejected? || answer.Uncertain?) && !hazards.fails ==>
                hazards.others || !Named(old(links), old(log[i]))
    {
      hide Inv;
      var s, attempted := Attempt(i);
      if s.Ran? { return Renamed; }
      if s.Crash? { return Crashed; }
      var crashed := Note(i, attempted);
      answer := if crashed then Crashed else if attempted then Uncertain else Rejected;
    }

    /** Renames a database on its server and in the manager. */
    method RenameDatabase(before: Name, after: Name) returns (answer: Answer)
      requires Valid()
      modifies `databases, `links, `log, `late, `lateLinks, `progress, `done
      ensures Valid()
      ensures old(Blocked(log)) || before == after ==> answer.Refused?
      ensures answer.Refused? ==> Contents() == old(Contents())
      ensures Traces(old(Contents()), Contents(), progress, before, after)
      ensures answer.Renamed? || answer.Uncertain? ==> |log| > |old(log)|
      ensures answer.Renamed? ==> log[|old(log)|].status.Succeeded?
      ensures |log| > |old(log)| ==>
                log[|old(log)|].(status := Running) ==
                Rename(before, after, (set id | id in old(links) && old(links)[id] == before), Running)
      ensures |log| > |old(log)| ==> before in old(databases) && after !in old(databases)
      ensures |log| > |old(log)| ==>
                forall e | e in old(log) && e.Rename? :: e.status in {Succeeded, Failed}
      ensures answer.Renamed? ==> forall id | id in old(links) && old(links)[id] == before :: id in links && links[id] == after
      ensures answer.Renamed? && !hazards.others ==>
                links == map id | id in old(links) :: if old(links)[id] == before then after else old(links)[id]
      ensures answer.Renamed? ==> forall n :: n in databases <==> n == after || (n in old(databases) && n != before)
      ensures answer.Rejected? ==> databases == old(databases) && !late
      ensures answer.Refused? && !hazards.others ==>
                || before == after || before !in old(databases) || after in old(databases)
                || exists k :: 0 <= k < |old(log)| && old(log)[k].Rename? && old(log)[k].status in {Running, NeedsReview}
      ensures !hazards.others && !hazards.fails && !hazards.crashes ==> answer.Refused? || answer.Renamed?
      ensures answer.Crashed? ==> hazards.crashes
      ensures !hazards.forgets && answer.Rejected? && |log| > |old(log)| ==> log[|old(log)|].status in {Failed, Running}
      ensures !hazards.forgets && answer.Uncertain? && !lateLinks ==> log[|old(log)|].status.NeedsReview?
    {
      hide Inv, ServerSide, LinkSide;
      var admitted := Admitted(); // the lock on renames and the connection
      if before == after || !admitted { return Refused; }
      assert Blocked(log) ==> exists k :: 0 <= k < |log| && log[k].Rename? && log[k].status in {Running, NeedsReview};
      var services := Review(before, after);
      admitted := Admitted(); // the locks on the applications and their deployments
      if services.None? || !admitted { return Refused; }
      SettledSidesAgree(start, Contents(), progress);
      var i := |log|;
      var s := Insert(Rename(before, after, services.value, Running));
      if s.Crash? { return Crashed; }
      if s.Broke? { return Rejected; }
      assert log[..i] == old(log);
      answer := Proceed(i);
    }
  }
}
