/**
 * The orchestration shared by the five scripts: `scheduleMeeting` arms a
 * one-off job for a meeting that starts in the future, `monitorMeetings`
 * runs a reconciler tick every minute over the `activeJobs` map (meeting id
 * to job) and returns a shutdown closure, and a job that fires writes the
 * fire status before running `handleMeeting`.
 */
module Scheduler {
  import opened Common

  /** A job armed with node-schedule for one meeting, identified by its position (its handle). */
  datatype Job = Job(meeting: Meeting, start: int, cancelled: bool, fired: bool)

  /** The result of the pending-meetings query; a null `data` behaves as an empty list. */
  datatype Fetch = Fetched(meetings: seq<Meeting>) | QueryError(message: string)

  /** The `activeJobs` map together with every job armed so far. */
  datatype Jobs = Jobs(active: map<string, nat>, armed: seq<Job>)

  /**
   * The start `scheduleMeeting` arms a job at, or `None` when it returns
   * null: a start at or before `now` is skipped by its guard. A null column
   * is the epoch, which the guard skips as past; a missing column is `None`
   * here too, although the guard does not skip an unparseable date and what
   * node-schedule then does is outside this model.
   */
  function Arm(v: Variant, m: Meeting, now: int): (start: Option<int>)
    ensures start.Some? <==> StartOf(v, m).Some? && StartOf(v, m).value > now
    ensures start.Some? ==> start == StartOf(v, m)
  {
    var s := StartOf(v, m);
    if s.Some? && s.value > now then s else None
  }

  /** The write a job makes when it fires, before `handleMeeting` runs. */
  function FireWrite(v: Variant, m: Meeting): Write {
    Write(Table(v), m.id, FireStatus(v), None, None)
  }

  /** Every key maps to an armed, uncancelled job for the meeting with that id. */
  predicate Consistent(t: Jobs) {
    forall id :: id in t.active ==>
      t.active[id] < |t.armed| && t.armed[t.active[id]].meeting.id == id && !t.armed[t.active[id]].cancelled
  }

  /** One step of the first loop: a meeting whose id is not a key is scheduled, and kept when a job came back. */
  function AddOne(v: Variant, t: Jobs, m: Meeting, now: int): Jobs {
    if m.id in t.active then t
    else match Arm(v, m, now)
      case None => t
      case Some(start) => Jobs(t.active[m.id := |t.armed|], t.armed + [Job(m, start, false, false)])
  }

  /** The first loop of a tick, over the fetched meetings in order. */
  function AddNew(v: Variant, t: Jobs, ms: seq<Meeting>, now: int): Jobs
    decreases |ms|
  {
    if ms == [] then t else AddOne(v, AddNew(v, t, ms[..|ms| - 1], now), ms[|ms| - 1], now)
  }

  /** The ids of the fetched meetings. */
  function FetchedIds(ms: seq<Meeting>): set<string> {
    set k | 0 <= k < |ms| :: ms[k].id
  }

  function Cancel(j: Job): Job {
    j.(cancelled := true)
  }

  /** `jobs` with every job whose handle is in `handles` cancelled. */
  function CancelAll(jobs: seq<Job>, handles: set<nat>): (r: seq<Job>)
    ensures |r| == |jobs|
    ensures forall h :: 0 <= h < |jobs| ==> r[h] == if h in handles then Cancel(jobs[h]) else jobs[h]
  {
    seq(|jobs|, h requires 0 <= h < |jobs| => if h in handles then Cancel(jobs[h]) else jobs[h])
  }

  /** The handles the keys in `ids` map to. */
  function HandlesOf(active: map<string, nat>, ids: set<string>): set<nat> {
    set id | id in active && id in ids :: active[id]
  }

  /**
   * The second loop of a tick after it has visited the keys in `visited`:
   * those absent from `ids` have had their job cancelled and are deleted.
   */
  function PruneVisited(t: Jobs, ids: set<string>, visited: set<string>): Jobs {
    Jobs(map id | id in t.active && (id in ids || id !in visited) :: t.active[id],
         CancelAll(t.armed, HandlesOf(t.active, visited - ids)))
  }

  /** The second loop of a tick: every key absent from the fetch has its job cancelled and is deleted. */
  function Prune(t: Jobs, ids: set<string>): Jobs {
    PruneVisited(t, ids, t.active.Keys)
  }

  /** What one reconciler tick does to the jobs; a query error is logged and changes nothing. */
  function TickResult(v: Variant, t: Jobs, fetch: Fetch, now: int): Jobs {
    match fetch
    case QueryError(_) => t
    case Fetched(ms) => Prune(AddNew(v, t, ms, now), FetchedIds(ms))
  }

  /** The ids of the fetched meetings `scheduleMeeting` arms a job for. */
  function ArmingIds(v: Variant, ms: seq<Meeting>, now: int): set<string>
    decreases |ms|
  {
    if ms == [] then {}
    else ArmingIds(v, ms[..|ms| - 1], now) + (if Arm(v, ms[|ms| - 1], now).Some? then {ms[|ms| - 1].id} else {})
  }

  /** An id is arming exactly when some fetched meeting with that id gets a job. */
  lemma {:induction false} ArmingIdsIff(v: Variant, ms: seq<Meeting>, now: int)
    ensures forall id :: id in ArmingIds(v, ms, now) <==>
              exists k :: 0 <= k < |ms| && Arm(v, ms[k], now).Some? && ms[k].id == id
    ensures ArmingIds(v, ms, now) <= FetchedIds(ms)
  {
    if ms != [] {
      var init := ms[..|ms| - 1];
      ArmingIdsIff(v, init, now);
      assert forall k :: 0 <= k < |init| ==> init[k] == ms[k];
      forall id | id in ArmingIds(v, ms, now) ensures id in FetchedIds(ms) {
        if id in ArmingIds(v, init, now) {
          var k :| 0 <= k < |init| && Arm(v, init[k], now).Some? && init[k].id == id;
          assert ms[k].id == id;
        } else {
          assert ms[|ms| - 1].id == id;
        }
      }
    }
  }

  /** The first loop adds exactly the arming ids and keeps every existing entry. */
  lemma {:induction false} AddNewKeys(v: Variant, t: Jobs, ms: seq<Meeting>, now: int)
    ensures AddNew(v, t, ms, now).active.Keys == t.active.Keys + ArmingIds(v, ms, now)
    ensures forall id :: id in t.active ==> AddNew(v, t, ms, now).active[id] == t.active[id]
  {
    if ms != [] {
      AddNewKeys(v, t, ms[..|ms| - 1], now);
    }
  }

  /**
   * The first loop only appends jobs, and every job it appends is live and
   * armed at the start of a fetched meeting that starts after `now`.
   */
  lemma {:induction false} AddNewArmsFetched(v: Variant, t: Jobs, ms: seq<Meeting>, now: int)
    ensures |t.armed| <= |AddNew(v, t, ms, now).armed| && AddNew(v, t, ms, now).armed[..|t.armed|] == t.armed
    ensures forall h :: |t.armed| <= h < |AddNew(v, t, ms, now).armed| ==>
              && (var j := AddNew(v, t, ms, now).armed[h];
                  Arm(v, j.meeting, now) == Some(j.start) && !j.cancelled && !j.fired &&
                  exists k :: 0 <= k < |ms| && ms[k] == j.meeting)
  {
    if ms != [] {
      var init := ms[..|ms| - 1];
      AddNewArmsFetched(v, t, init, now);
      var before := AddNew(v, t, init, now);
      forall h | |t.armed| <= h < |before.armed|
        ensures exists k :: 0 <= k < |ms| && ms[k] == before.armed[h].meeting
      {
        var k :| 0 <= k < |init| && init[k] == before.armed[h].meeting;
        assert ms[k] == init[k];
      }
      assert ms[|ms| - 1] == ms[|ms| - 1];
    }
  }

  /** The first loop keeps the map consistent with the jobs. */
  lemma {:induction false} AddNewConsistent(v: Variant, t: Jobs, ms: seq<Meeting>, now: int)
    requires Consistent(t)
    ensures Consistent(AddNew(v, t, ms, now))
  {
    if ms != [] {
      AddNewConsistent(v, t, ms[..|ms| - 1], now);
    }
  }

  /** Every live (uncancelled) job is the job of some key: no job the map has lost track of is still armed. */
  predicate NoOrphans(t: Jobs) {
    forall h :: 0 <= h < |t.armed| && !t.armed[h].cancelled ==> exists id :: id in t.active && t.active[id] == h
  }

  /** At most one live job per meeting id. */
  predicate SingleFlight(t: Jobs) {
    forall h1, h2 ::
      (0 <= h1 < |t.armed| && 0 <= h2 < |t.armed| && !t.armed[h1].cancelled && !t.armed[h2].cancelled &&
       t.armed[h1].meeting.id == t.armed[h2].meeting.id) ==> h1 == h2
  }

  /** A consistent map without orphans allows one live job per meeting id. */
  lemma {:induction false} SingleFlightHolds(t: Jobs)
    requires Consistent(t) && NoOrphans(t)
    ensures SingleFlight(t)
  {
    forall h1, h2 | 0 <= h1 < |t.armed| && 0 <= h2 < |t.armed| && !t.armed[h1].cancelled && !t.armed[h2].cancelled &&
      t.armed[h1].meeting.id == t.armed[h2].meeting.id
      ensures h1 == h2
    {
      var id1 :| id1 in t.active && t.active[id1] == h1;
      var id2 :| id2 in t.active && t.active[id2] == h2;
      assert t.armed[h1].meeting.id == id1 && t.armed[h2].meeting.id == id2;
    }
  }

  /**
   * The first loop appends one job per new key: each appended job is for an
   * id that was not a key before, and that id now maps to it; each new key
   * maps to an appended job.
   */
  lemma {:induction false} AddNewFresh(v: Variant, t: Jobs, ms: seq<Meeting>, now: int)
    ensures var r := AddNew(v, t, ms, now);
            forall h :: |t.armed| <= h < |r.armed| ==>
              r.armed[h].meeting.id !in t.active && r.armed[h].meeting.id in r.active && r.active[r.armed[h].meeting.id] == h
    ensures var r := AddNew(v, t, ms, now);
            forall id :: id in r.active && id !in t.active ==> |t.armed| <= r.active[id] < |r.armed|
  {
    if ms != [] {
      var init := ms[..|ms| - 1];
      var m := ms[|ms| - 1];
      AddNewFresh(v, t, init, now);
      AddNewKeys(v, t, init, now);
      AddNewArmsFetched(v, t, init, now);
      var before := AddNew(v, t, init, now);
      var r := AddNew(v, t, ms, now);
      assert r == AddOne(v, before, m, now);
      if m.id !in before.active && Arm(v, m, now).Some? {
        forall h | |t.armed| <= h < |r.armed|
          ensures r.armed[h].meeting.id !in t.active && r.armed[h].meeting.id in r.active && r.active[r.armed[h].meeting.id] == h
        {
          if h < |before.armed| {
            assert r.armed[h] == before.armed[h];
          }
        }
      }
    }
  }

  /** The first loop leaves no orphan. */
  lemma {:induction false} AddNewNoOrphans(v: Variant, t: Jobs, ms: seq<Meeting>, now: int)
    requires NoOrphans(t)
    ensures NoOrphans(AddNew(v, t, ms, now))
  {
    var r := AddNew(v, t, ms, now);
    AddNewKeys(v, t, ms, now);
    AddNewArmsFetched(v, t, ms, now);
    AddNewFresh(v, t, ms, now);
    forall h | 0 <= h < |r.armed| && !r.armed[h].cancelled
      ensures exists id :: id in r.active && r.active[id] == h
    {
      if h < |t.armed| {
        assert r.armed[h] == r.armed[..|t.armed|][h];
        var id :| id in t.active && t.active[id] == h;
        assert r.active[id] == h;
      } else {
        var id := r.armed[h].meeting.id;
        assert id in r.active && r.active[id] == h;
      }
    }
  }

  /** Cancelling no job changes nothing. */
  lemma {:induction false} CancelAllNone(jobs: seq<Job>)
    ensures CancelAll(jobs, {}) == jobs
  {
  }

  /** Cancelling one more job is an update at its handle. */
  lemma {:induction false} CancelAllStep(jobs: seq<Job>, handles: set<nat>, h: nat)
    requires h < |jobs|
    ensures CancelAll(jobs, handles + {h}) == CancelAll(jobs, handles)[h := Cancel(CancelAll(jobs, handles)[h])]
  {
  }

  /** Visiting one more key adds its handle. */
  lemma {:induction false} HandlesOfStep(active: map<string, nat>, visited: set<string>, id: string)
    requires id in active
    ensures HandlesOf(active, visited + {id}) == HandlesOf(active, visited) + {active[id]}
  {
  }

  /** Before the second loop visits a key, nothing is pruned. */
  lemma {:induction false} PruneVisitedNone(t: Jobs, ids: set<string>)
    ensures PruneVisited(t, ids, {}) == t
  {
    assert HandlesOf(t.active, {} - ids) == {};
    CancelAllNone(t.armed);
  }

  /** Visiting one more key: a fetched id is kept, an absent one has its job cancelled and is deleted. */
  lemma {:induction false} PruneVisitedStep(t: Jobs, ids: set<string>, visited: set<string>, id: string)
    requires id in t.active && id !in visited && t.active[id] < |t.armed|
    ensures var p := PruneVisited(t, ids, visited);
            PruneVisited(t, ids, visited + {id}) ==
              if id in ids then p
              else Jobs(p.active - {id}, p.armed[t.active[id] := Cancel(p.armed[t.active[id]])])
  {
    if id !in ids {
      assert (visited + {id}) - ids == (visited - ids) + {id};
      HandlesOfStep(t.active, visited - ids, id);
      CancelAllStep(t.armed, HandlesOf(t.active, visited - ids), t.active[id]);
    } else {
      assert (visited + {id}) - ids == visited - ids;
    }
  }

  /** The second loop keeps the map consistent, leaves no absent key, cancels every dropped job and keeps the rest. */
  lemma {:induction false} PruneSpec(t: Jobs, ids: set<string>)
    requires Consistent(t)
    ensures Consistent(Prune(t, ids))
    ensures Prune(t, ids).active.Keys == t.active.Keys * ids
    ensures forall id :: id in t.active && id in ids ==> Prune(t, ids).active[id] == t.active[id]
    ensures |Prune(t, ids).armed| == |t.armed|
    ensures forall id :: id in t.active && id !in ids ==> Prune(t, ids).armed[t.active[id]].cancelled
    ensures forall h :: 0 <= h < |t.armed| ==> Prune(t, ids).armed[h].meeting == t.armed[h].meeting
  {
    var r := Prune(t, ids);
    var dropped := HandlesOf(t.active, t.active.Keys - ids);
    forall id | id in r.active ensures t.active[id] !in dropped {
      forall other | other in t.active && other in t.active.Keys - ids ensures t.active[other] != t.active[id] {
        // the two keys differ, and each handle's job carries its own key
        assert t.armed[t.active[other]].meeting.id == other;
      }
    }
    forall id | id in t.active && id !in ids ensures t.active[id] in dropped {
    }
  }

  /** The second loop leaves no orphan: a live job's key is either kept or has that job cancelled. */
  lemma {:induction false} PruneNoOrphans(t: Jobs, ids: set<string>)
    requires Consistent(t) && NoOrphans(t)
    ensures NoOrphans(Prune(t, ids))
  {
    var r := Prune(t, ids);
    var dropped := HandlesOf(t.active, t.active.Keys - ids);
    PruneSpec(t, ids);
    forall h | 0 <= h < |r.armed| && !r.armed[h].cancelled
      ensures exists id :: id in r.active && r.active[id] == h
    {
      assert !t.armed[h].cancelled;
      var id :| id in t.active && t.active[id] == h;
      assert r.active[id] == h;
    }
  }

  /**
   * After a successful tick every key is the id of a fetched meeting and
   * every fetched meeting that got a job is a key.
   */
  lemma {:induction false} TickSpec(v: Variant, t: Jobs, ms: seq<Meeting>, now: int)
    requires Consistent(t)
    ensures Consistent(TickResult(v, t, Fetched(ms), now))
    ensures TickResult(v, t, Fetched(ms), now).active.Keys == (t.active.Keys * FetchedIds(ms)) + ArmingIds(v, ms, now)
    ensures TickResult(v, t, Fetched(ms), now).active.Keys <= FetchedIds(ms)
  {
    AddNewKeys(v, t, ms, now);
    AddNewConsistent(v, t, ms, now);
    ArmingIdsIff(v, ms, now);
    PruneSpec(AddNew(v, t, ms, now), FetchedIds(ms));
  }

  /** A tick leaves no orphan, and so at most one live job per meeting id. */
  lemma {:induction false} TickNoOrphans(v: Variant, t: Jobs, fetch: Fetch, now: int)
    requires Consistent(t) && NoOrphans(t)
    ensures NoOrphans(TickResult(v, t, fetch, now))
    ensures SingleFlight(TickResult(v, t, fetch, now))
  {
    if fetch.Fetched? {
      var ms := fetch.meetings;
      AddNewConsistent(v, t, ms, now);
      AddNewNoOrphans(v, t, ms, now);
      PruneNoOrphans(AddNew(v, t, ms, now), FetchedIds(ms));
      TickSpec(v, t, ms, now);
    }
    SingleFlightHolds(TickResult(v, t, fetch, now));
  }

  /** Without orphans, cancelling the job of every key cancels every job. */
  lemma {:induction false} CancelKeysCancelsAll(t: Jobs)
    requires NoOrphans(t)
    ensures forall h :: 0 <= h < |t.armed| ==> CancelAll(t.armed, t.active.Values)[h].cancelled
  {
    forall h | 0 <= h < |t.armed| ensures CancelAll(t.armed, t.active.Values)[h].cancelled {
      if !t.armed[h].cancelled {
        var id :| id in t.active && t.active[id] == h;
        assert h in t.active.Values;
      }
    }
  }

  /** A tick cancels the job of every key absent from the fetch. */
  lemma {:induction false} TickCancelsAbsent(v: Variant, t: Jobs, ms: seq<Meeting>, now: int)
    requires Consistent(t)
    ensures |t.armed| <= |TickResult(v, t, Fetched(ms), now).armed|
    ensures forall id :: id in t.active && id !in FetchedIds(ms) ==>
              TickResult(v, t, Fetched(ms), now).armed[t.active[id]].cancelled
  {
    AddNewKeys(v, t, ms, now);
    AddNewArmsFetched(v, t, ms, now);
    AddNewConsistent(v, t, ms, now);
    PruneSpec(AddNew(v, t, ms, now), FetchedIds(ms));
  }

  /** The first loop changes nothing when every fetched meeting is a key already or gets no job. */
  lemma {:induction false} AddNewSettled(v: Variant, t: Jobs, ms: seq<Meeting>, now: int)
    requires forall k :: 0 <= k < |ms| ==> ms[k].id in t.active || Arm(v, ms[k], now).None?
    ensures AddNew(v, t, ms, now) == t
  {
    if ms != [] {
      AddNewSettled(v, t, ms[..|ms| - 1], now);
    }
  }

  /** Pruning keeps everything when every key is among `ids`. */
  lemma {:induction false} PruneKeepsAll(t: Jobs, ids: set<string>)
    requires t.active.Keys <= ids
    ensures Prune(t, ids) == t
  {
    assert HandlesOf(t.active, t.active.Keys - ids) == {};
    CancelAllNone(t.armed);
  }

  /** After a tick every fetched meeting that gets a job at `now` is a key. */
  lemma {:induction false} TickCoversArming(v: Variant, t: Jobs, ms: seq<Meeting>, now: int)
    requires Consistent(t)
    ensures forall k :: 0 <= k < |ms| ==>
              ms[k].id in TickResult(v, t, Fetched(ms), now).active || Arm(v, ms[k], now).None?
  {
    TickSpec(v, t, ms, now);
    ArmingIdsIff(v, ms, now);
  }

  /** A second tick with the same fetch at the same time changes nothing. */
  lemma {:induction false} TickIdempotent(v: Variant, t: Jobs, fetch: Fetch, now: int)
    requires Consistent(t)
    ensures TickResult(v, TickResult(v, t, fetch, now), fetch, now) == TickResult(v, t, fetch, now)
  {
    if fetch.Fetched? {
      var ms := fetch.meetings;
      var once := TickResult(v, t, fetch, now);
      TickSpec(v, t, ms, now);
      TickCoversArming(v, t, ms, now);
      AddNewSettled(v, once, ms, now);
      PruneKeepsAll(once, FetchedIds(ms));
    }
  }

  /** The `activeJobs` map of `monitorMeetings`, the jobs it armed, and the effects of the jobs that fired. */
  class Monitor {
    const variant: Variant
    var activeJobs: map<string, nat>
    var armed: seq<Job>
    var log: seq<Effect>
    var monitoring: bool   // the every-minute monitor job is still scheduled

    ghost predicate Valid()
      reads this
    {
      Consistent(Jobs(activeJobs, armed)) && NoOrphans(Jobs(activeJobs, armed))
    }

    /** `monitorMeetings()`: an empty map and the monitor job scheduled. */
    constructor (v: Variant)
      ensures Valid()
      ensures variant == v && activeJobs == map[] && armed == [] && log == [] && monitoring
    {
      variant := v;
      activeJobs := map[];
      armed := [];
      log := [];
      monitoring := true;
    }

    /** `scheduleMeeting(meeting)`: the handle of the job it arms, or `None` for null. */
    method ScheduleMeeting(m: Meeting, now: int) returns (handle: Option<nat>)
      modifies this
      ensures handle.Some? <==> Arm(variant, m, now).Some?
      ensures handle.Some? ==> handle.value == old(|armed|) && armed == old(armed) + [Job(m, Arm(variant, m, now).value, false, false)]
      ensures handle.None? ==> armed == old(armed)
      ensures activeJobs == old(activeJobs) && log == old(log) && monitoring == old(monitoring)
    {
      var start := StartOf(variant, m);
      if start.None? || start.value <= now {
        return None;
      }
      handle := Some(|armed|);
      armed := armed + [Job(m, start.value, false, false)];
    }

    /** One run of the every-minute monitor job, given the query result and the current time. */
    method Tick(fetch: Fetch, now: int)
      requires Valid()
      modifies this
      ensures Valid() && SingleFlight(Jobs(activeJobs, armed))
      ensures Jobs(activeJobs, armed) ==
                if old(monitoring) then TickResult(variant, Jobs(old(activeJobs), old(armed)), fetch, now)
                else Jobs(old(activeJobs), old(armed))
      ensures log == old(log) && monitoring == old(monitoring)
    {
      if !monitoring || fetch.QueryError? {
        // a cancelled monitor job never runs; a query error is logged and swallowed
        SingleFlightHolds(Jobs(activeJobs, armed));
        return;
      }
      var ms := fetch.meetings;
      ghost var before := Jobs(activeJobs, armed);
      var i := 0;
      while i < |ms|
        invariant 0 <= i <= |ms|
        invariant Jobs(activeJobs, armed) == AddNew(variant, before, ms[..i], now)
        invariant log == old(log) && monitoring == old(monitoring)
      {
        var m := ms[i];
        assert ms[..i + 1][..i] == ms[..i];
        if m.id !in activeJobs {
          var job := ScheduleMeeting(m, now);
          if job.Some? {
            activeJobs := activeJobs[m.id := job.value];
          }
        }
        i := i + 1;
      }
      assert ms[..|ms|] == ms;
      AddNewConsistent(variant, before, ms, now);
      AddNewNoOrphans(variant, before, ms, now);
      PruneIn(FetchedIds(ms));
      SingleFlightHolds(Jobs(activeJobs, armed));
    }

    /** The second loop of a tick: cancel and delete every key absent from `ids`. */
    method PruneIn(ids: set<string>)
      requires Valid()
      modifies this
      ensures Valid()
      ensures Jobs(activeJobs, armed) == Prune(Jobs(old(activeJobs), old(armed)), ids)
      ensures log == old(log) && monitoring == old(monitoring)
    {
      ghost var start := Jobs(activeJobs, armed);
      PruneVisitedNone(start, ids);
      var keys := activeJobs.Keys;
      while keys != {}
        invariant keys <= start.active.Keys
        invariant Jobs(activeJobs, armed) == PruneVisited(start, ids, start.active.Keys - keys)
        invariant log == old(log) && monitoring == old(monitoring)
        decreases keys
      {
        var id :| id in keys;
        ghost var visited := start.active.Keys - keys;
        PruneVisitedStep(start, ids, visited, id);
        assert visited + {id} == start.active.Keys - (keys - {id});
        Visit(id, ids);
        keys := keys - {id};
      }
      assert start.active.Keys - keys == start.active.Keys;
      PruneSpec(start, ids);
      PruneNoOrphans(start, ids);
    }

    /** One iteration of the second loop: the job of a key absent from `ids` is cancelled and the key deleted. */
    method Visit(id: string, ids: set<string>)
      requires id in activeJobs && activeJobs[id] < |armed|
      modifies this
      ensures id in ids ==> activeJobs == old(activeJobs) && armed == old(armed)
      ensures id !in ids ==>
                && activeJobs == old(activeJobs) - {id}
                && armed == old(armed)[old(activeJobs)[id] := Cancel(old(armed)[old(activeJobs)[id]])]
      ensures log == old(log) && monitoring == old(monitoring)
    {
      if id !in ids {
        var h := activeJobs[id];
        armed := armed[h := Cancel(armed[h])];
        activeJobs := activeJobs - {id};
      }
    }

    /** Job `h` fires: it writes the fire status, then `handleMeeting` runs and produces `run`. */
    method Fire(h: nat, run: Run)
      requires Valid() && h < |armed|
      modifies this
      ensures Valid() && SingleFlight(Jobs(activeJobs, armed))
      ensures old(!armed[h].cancelled && !armed[h].fired) ==>
                && armed == old(armed)[h := old(armed)[h].(fired := true)]
                && log == old(log) + [StoreWrite(FireWrite(variant, old(armed)[h].meeting))] + Effects(run.effects)
      ensures old(armed[h].cancelled || armed[h].fired) ==> armed == old(armed) && log == old(log)
      ensures activeJobs == old(activeJobs) && monitoring == old(monitoring)
    {
      if armed[h].cancelled || armed[h].fired {
        // a cancelled job never fires, and a one-off job fires once
        SingleFlightHolds(Jobs(activeJobs, armed));
        return;
      }
      var job := armed[h];
      armed := armed[h := job.(fired := true)];
      log := log + [StoreWrite(FireWrite(variant, job.meeting))];
      log := log + Effects(run.effects);
      SingleFlightHolds(Jobs(activeJobs, armed));
    }

    /** The closure `monitorMeetings` returns: cancel the monitor job and every active job, and clear the map. */
    method Shutdown()
      requires Valid()
      modifies this
      ensures Valid()
      ensures activeJobs == map[] && !monitoring
      ensures armed == CancelAll(old(armed), old(activeJobs).Values)
      ensures forall h :: 0 <= h < |armed| ==> armed[h].cancelled
      ensures log == old(log)
    {
      CancelKeysCancelsAll(Jobs(activeJobs, armed));
      monitoring := false;
      CancelEach();
      activeJobs := map[];
    }

    /** `activeJobs.forEach(job => job.cancel())`. */
    method CancelEach()
      requires Valid()
      modifies this
      ensures armed == CancelAll(old(armed), old(activeJobs).Values)
      ensures activeJobs == old(activeJobs) && log == old(log) && monitoring == old(monitoring)
    {
      ghost var start := armed;
      CancelAllNone(start);
      assert HandlesOf(activeJobs, {}) == {};
      var keys := activeJobs.Keys;
      while keys != {}
        invariant keys <= activeJobs.Keys
        invariant activeJobs == old(activeJobs) && Consistent(Jobs(activeJobs, start))
        invariant armed == CancelAll(start, HandlesOf(activeJobs, activeJobs.Keys - keys))
        invariant log == old(log) && monitoring == old(monitoring)
        decreases keys
      {
        var id :| id in keys;
        var h := activeJobs[id];
        HandlesOfStep(activeJobs, activeJobs.Keys - keys, id);
        assert (activeJobs.Keys - keys) + {id} == activeJobs.Keys - (keys - {id});
        CancelAllStep(start, HandlesOf(activeJobs, activeJobs.Keys - keys), h);
        armed := armed[h := Cancel(armed[h])];
        keys := keys - {id};
      }
      assert HandlesOf(activeJobs, activeJobs.Keys) == activeJobs.Values;
    }
  }
}
