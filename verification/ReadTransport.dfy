/** src/api/read-transport.ts: native reads bounded by two pools of permits. Each method of the class is one stretch of
    code between two awaits of `request`, or one callback. */
module ReadTransport {
  import opened Basics

  datatype Waiter = Waiter(id: nat, reserve: bool)

  /** How far a request has come. `Reading` lasts until the native read settles, whatever its caller does meanwhile.
      `Lost` is a request whose `execute` threw instead of returning a promise: nothing is left that could return its
      permit. */
  datatype Stage = Queued | Granted | Reading(abandoned: bool) | Lost | Finished

  const RESERVE_LIMIT := 2

  /** The waiters of one pool, in order. */
  function Pool(waiters: seq<Waiter>, reserve: bool): seq<Waiter> {
    if waiters == [] then []
    else (if waiters[0].reserve == reserve then [waiters[0]] else []) + Pool(waiters[1..], reserve)
  }

  lemma {:induction false} PoolConcat(a: seq<Waiter>, b: seq<Waiter>, reserve: bool)
    ensures Pool(a + b, reserve) == Pool(a, reserve) + Pool(b, reserve)
  {
    if a == [] { assert a + b == b; }
    else {
      assert (a + b)[1..] == a[1..] + b;
      PoolConcat(a[1..], b, reserve);
    }
  }

  /** Taking one waiter out of the middle takes it out of its pool, at the front when the waiters before it belong to
      the other pool. */
  lemma {:induction false} TakeOne(waiters: seq<Waiter>, i: nat)
    requires i < |waiters| && forall k :: 0 <= k < i ==> waiters[k].reserve != waiters[i].reserve
    ensures var rest, w := waiters[..i] + waiters[i + 1..], waiters[i];
      Pool(waiters, w.reserve) == [w] + Pool(rest, w.reserve) && Pool(waiters, !w.reserve) == Pool(rest, !w.reserve)
  {
    var rest := waiters[..i] + waiters[i + 1..];
    if i == 0 { assert rest == waiters[1..]; }
    else {
      TakeOne(waiters[1..], i - 1);
      assert waiters[1..][i - 1] == waiters[i];
      assert rest[1..] == waiters[1..][..i - 1] + waiters[1..][i..];
    }
  }

  predicate Holds(stage: Stage) { stage.Granted? || stage.Reading? || stage.Lost? }

  /** Exactly the queued requests are waiting, once each and in their own pool. */
  ghost predicate Waiting(waiters: seq<Waiter>, stages: map<nat, Stage>, reserve: map<nat, bool>) {
    && stages.Keys == reserve.Keys
    && (forall w :: w in waiters ==> w.id in stages && stages[w.id].Queued? && reserve[w.id] == w.reserve)
    && (forall id :: id in stages && stages[id].Queued? ==> Waiter(id, reserve[id]) in waiters)
    && DistinctIds(waiters)
  }

  /** The requests of a pool that hold a permit. */
  ghost predicate Held(stages: map<nat, Stage>, reserve: map<nat, bool>, pool: bool, held: set<nat>) {
    forall id :: id in held <==> id in stages && id in reserve && reserve[id] == pool && Holds(stages[id])
  }

  ghost predicate DistinctIds(waiters: seq<Waiter>) {
    forall i, j :: 0 <= i < j < |waiters| ==> waiters[i].id != waiters[j].id
  }

  lemma Without(waiters: seq<Waiter>, i: nat)
    requires i < |waiters| && DistinctIds(waiters)
    ensures DistinctIds(waiters[..i] + waiters[i + 1..])
    ensures forall v :: v in waiters[..i] + waiters[i + 1..] <==> v in waiters && v.id != waiters[i].id
  {
    var rest := waiters[..i] + waiters[i + 1..];
    forall v | v in waiters && v.id != waiters[i].id ensures v in rest {
      var k :| 0 <= k < |waiters| && waiters[k] == v;
      assert if k < i then rest[k] == v else rest[k - 1] == v;
    }
    forall v | v in rest ensures v in waiters && v.id != waiters[i].id {
      var k :| 0 <= k < |rest| && rest[k] == v;
      assert v == if k < i then waiters[k] else waiters[k + 1];
    }
  }

  /** A waiter that leaves the queue, for whatever stage. */
  lemma Leaves(waiters: seq<Waiter>, stages: map<nat, Stage>, reserve: map<nat, bool>, i: nat, stage: Stage)
    requires Waiting(waiters, stages, reserve) && i < |waiters| && !stage.Queued?
    ensures Waiting(waiters[..i] + waiters[i + 1..], stages[waiters[i].id := stage], reserve)
  {
    Without(waiters, i);
    hide DistinctIds;
  }

  /** First come, first served within each pool. */
  ghost predicate Served(before: seq<Waiter>, granted: seq<Waiter>, after: seq<Waiter>) {
    forall pool :: Pool(before, pool) == Pool(granted, pool) + Pool(after, pool)
  }

  /** Exactly the granted requests have moved on. */
  ghost predicate Marked(before: map<nat, Stage>, granted: seq<Waiter>, after: map<nat, Stage>) {
    && after.Keys == before.Keys
    && (forall w :: w in granted ==> w.id in before && before[w.id].Queued? && after[w.id] == Granted)
    && (forall id :: id in before && after[id] != before[id] ==> exists w :: w in granted && w.id == id)
  }

  /** A lost request stays lost, and with it the permit that it holds. */
  ghost predicate LostStay(before: map<nat, Stage>, after: map<nat, Stage>) {
    forall id :: id in before && before[id].Lost? ==> id in after && after[id].Lost?
  }

  lemma MarkedKeepsLost(before: map<nat, Stage>, granted: seq<Waiter>, after: map<nat, Stage>)
    requires Marked(before, granted, after)
    ensures LostStay(before, after)
  {}

  /** The counters have grown by the grants of their pools, none of them above the limit. */
  predicate Accounted(granted: seq<Waiter>, before: (nat, nat), after: (nat, nat), limit: int) {
    && after.0 == before.0 + |Pool(granted, false)| && after.1 == before.1 + |Pool(granted, true)|
    && (Pool(granted, false) != [] ==> after.0 <= limit) && (Pool(granted, true) != [] ==> after.1 <= RESERVE_LIMIT)
  }

  lemma AccountOne(granted: seq<Waiter>, before: (nat, nat), after: (nat, nat), limit: int, w: Waiter)
    requires Accounted(granted, before, after, limit) && (if w.reserve then after.1 < RESERVE_LIMIT else after.0 < limit)
    ensures Accounted(granted + [w], before, if w.reserve then (after.0, after.1 + 1) else (after.0 + 1, after.1), limit)
  {
    PoolSnoc(granted, w, false);
    PoolSnoc(granted, w, true);
  }

  lemma NothingServed(waiters: seq<Waiter>, stages: map<nat, Stage>, counters: (nat, nat), limit: int)
    ensures Served(waiters, [], waiters) && Marked(stages, [], stages) && Accounted([], counters, counters, limit)
  {}

  lemma PoolSnoc(waiters: seq<Waiter>, w: Waiter, pool: bool)
    ensures Pool(waiters + [w], pool) == if w.reserve == pool then Pool(waiters, pool) + [w] else Pool(waiters, pool)
  {
    PoolConcat(waiters, [w], pool);
    assert [w][1..] == [];
  }

  lemma ServeOne(before: seq<Waiter>, granted: seq<Waiter>, waiters: seq<Waiter>, i: nat)
    requires Served(before, granted, waiters)
    requires i < |waiters| && forall k :: 0 <= k < i ==> waiters[k].reserve != waiters[i].reserve
    ensures Served(before, granted + [waiters[i]], waiters[..i] + waiters[i + 1..])
  {
    hide Pool;
    var w, rest := waiters[i], waiters[..i] + waiters[i + 1..];
    TakeOne(waiters, i);
    PoolSnoc(granted, w, w.reserve);
    PoolSnoc(granted, w, !w.reserve);
    assert Pool(granted, w.reserve) + ([w] + Pool(rest, w.reserve)) == (Pool(granted, w.reserve) + [w]) + Pool(rest, w.reserve);
    forall pool ensures Pool(before, pool) == Pool(granted + [w], pool) + Pool(rest, pool) {
      assert pool == w.reserve || pool == !w.reserve;
    }
  }

  lemma MarkOne(before: map<nat, Stage>, granted: seq<Waiter>, stages: map<nat, Stage>, w: Waiter)
    requires Marked(before, granted, stages) && w.id in stages && stages[w.id].Queued?
    ensures Marked(before, granted + [w], stages[w.id := Granted])
  {}

  /** A new waiter at the end of the queue. */
  lemma Joins(waiters: seq<Waiter>, stages: map<nat, Stage>, reserve: map<nat, bool>, w: Waiter)
    requires Waiting(waiters, stages, reserve) && w.id !in stages
    ensures Waiting(waiters + [w], stages[w.id := Queued], reserve[w.id := w.reserve])
  {}

  lemma JoinsHeld(stages: map<nat, Stage>, reserve: map<nat, bool>, pool: bool, held: set<nat>, w: Waiter)
    requires Held(stages, reserve, pool, held) && w.id !in stages
    ensures Held(stages[w.id := Queued], reserve[w.id := w.reserve], pool, held)
  {}

  lemma StageHeld(stages: map<nat, Stage>, reserve: map<nat, bool>, pool: bool, held: set<nat>, id: nat, stage: Stage)
    requires Held(stages, reserve, pool, held) && id in stages && id in reserve
    ensures Held(stages[id := stage], reserve, pool,
                 if reserve[id] != pool then held else if Holds(stage) then held + {id} else held - {id})
  {}

  /** A request that is not queued changes its stage. */
  lemma Stays(waiters: seq<Waiter>, stages: map<nat, Stage>, reserve: map<nat, bool>, id: nat, stage: Stage)
    requires Waiting(waiters, stages, reserve) && id in stages && !stages[id].Queued? && !stage.Queued?
    ensures Waiting(waiters, stages[id := stage], reserve)
  {}

  class RemoteReadTransport {
    var active: nat
    var activeReserve: nat
    var concurrency: int
    var sequence: nat
    var waiters: seq<Waiter>
    var stages: map<nat, Stage>
    var reserve: map<nat, bool>
    ghost var held: set<nat>
    ghost var heldReserve: set<nat>

    /** The counters are exactly the unreleased permits of their pools. */
    ghost predicate Valid()
      reads this
    {
      && Waiting(waiters, stages, reserve) && (forall id :: id in stages ==> id < sequence)
      && Held(stages, reserve, false, held) && Held(stages, reserve, true, heldReserve)
      && active == |held| && activeReserve == |heldReserve|
    }

    predicate Full(pool: bool)
      reads this
    {
      if pool then activeReserve >= RESERVE_LIMIT else active >= concurrency
    }

    /** No waiter could be granted a permit now. */
    ghost predicate Drained()
      reads this
    {
      forall w :: w in waiters ==> Full(w.reserve)
    }

    constructor (concurrency: int)
      ensures Valid() && Drained() && this.concurrency == concurrency && waiters == [] && stages == map[]
    {
      this.concurrency := concurrency;
      active, activeReserve, sequence, waiters, stages, reserve := 0, 0, 0, [], map[], map[];
      held, heldReserve := {}, {};
    }

    /** One grant: the permit is taken before the waiter learns of it. */
    method Grant(i: nat)
      requires Valid() && i < |waiters| && !Full(waiters[i].reserve)
      modifies this`active, this`activeReserve, this`waiters, this`stages, this`held, this`heldReserve
      ensures Valid() && waiters == old(waiters[..i] + waiters[i + 1..])
      ensures stages == old(stages[waiters[i].id := Granted])
      ensures active == old(active) + (if old(waiters[i].reserve) then 0 else 1)
      ensures activeReserve == old(activeReserve) + (if old(waiters[i].reserve) then 1 else 0)
    {
      hide Waiting;
      var w := waiters[i];
      QueuedHere(w);
      Leaves(waiters, stages, reserve, i, Granted);
      waiters := waiters[..i] + waiters[i + 1..];
      stages := stages[w.id := Granted];
      if w.reserve {
        activeReserve, heldReserve := activeReserve + 1, heldReserve + {w.id};
      } else {
        active, held := active + 1, held + {w.id};
      }
    }

    lemma HeldHere(id: nat)
      requires Valid() && id in stages && Holds(stages[id])
      ensures id in reserve && id in (if reserve[id] then heldReserve else held)
    {}

    lemma QueuedHere(w: Waiter)
      requires Valid() && w in waiters
      ensures w.id in stages && stages[w.id].Queued? && w.id in reserve && reserve[w.id] == w.reserve
    {}

    /** What dispatching has done so far. */
    ghost predicate Progress(before: seq<Waiter>, marks: map<nat, Stage>, start: (nat, nat), granted: seq<Waiter>)
      reads this
    {
      && Served(before, granted, waiters) && Marked(marks, granted, stages)
      && Accounted(granted, start, (active, activeReserve), concurrency)
    }

    /** The first waiter of a pool with room is served. */
    method ServeAt(i: nat, granted: seq<Waiter>, ghost before: seq<Waiter>, ghost marks: map<nat, Stage>, ghost start: (nat, nat))
      returns (more: seq<Waiter>)
      requires Valid() && Progress(before, marks, start, granted) && i < |waiters| && !Full(waiters[i].reserve)
      requires forall k :: 0 <= k < i ==> Full(waiters[k].reserve)
      modifies this`active, this`activeReserve, this`waiters, this`stages, this`held, this`heldReserve
      ensures Valid() && Progress(before, marks, start, more) && |waiters| == old(|waiters|) - 1
      ensures i <= |waiters| && forall k :: 0 <= k < i ==> Full(waiters[k].reserve)
    {
      hide Served, Marked, Waiting, Held, Pool, Valid, Accounted;
      var w := waiters[i];
      ServeOne(before, granted, waiters, i);
      QueuedHere(w);
      MarkOne(marks, granted, stages, w);
      AccountOne(granted, start, (active, activeReserve), concurrency, w);
      Grant(i);
      more := granted + [w];
    }

    /** `dispatch`: permits go to each pool in the order of its waiters, up to its limit, and nobody who could have
        one is left waiting. */
    method Dispatch() returns (granted: seq<Waiter>)
      requires Valid()
      modifies this`active, this`activeReserve, this`waiters, this`stages, this`held, this`heldReserve
      ensures Valid() && Drained()
      ensures Served(old(waiters), granted, waiters) && Marked(old(stages), granted, stages)
      ensures Accounted(granted, old((active, activeReserve)), (active, activeReserve), concurrency)
      ensures LostStay(old(stages), stages)
    {
      hide Served, Marked, Accounted, Valid, LostStay;
      granted := [];
      var i := 0;
      NothingServed(waiters, stages, (active, activeReserve), concurrency);
      while i < |waiters|
        invariant Valid() && i <= |waiters| && Progress(old(waiters), old(stages), old((active, activeReserve)), granted)
        invariant forall k :: 0 <= k < i ==> Full(waiters[k].reserve)
        decreases |waiters| - i
      {
        if Full(waiters[i].reserve) {
          i := i + 1;
        } else {
          granted := ServeAt(i, granted, old(waiters), old(stages), old((active, activeReserve)));
        }
      }
      MarkedKeepsLost(old(stages), granted, stages);
    }

    /** `setConcurrency`: a smaller limit takes no permit away. */
    method SetConcurrency(limit: int) returns (granted: seq<Waiter>)
      requires Valid()
      modifies this`active, this`activeReserve, this`waiters, this`stages, this`held, this`heldReserve, this`concurrency
      ensures Valid() && Drained() && concurrency == (if limit > 40 then 40 else if limit < 1 then 1 else limit)
      ensures Served(old(waiters), granted, waiters) && Marked(old(stages), granted, stages)
      ensures LostStay(old(stages), stages)
    {
      concurrency := if limit > 40 then 40 else if limit < 1 then 1 else limit;
      granted := Dispatch();
    }

    /** The first stretch of `request`: the caller joins the queue, and is served at once when its pool has room. */
    method Request(reserved: bool) returns (id: nat, granted: seq<Waiter>)
      requires Valid()
      modifies this`active, this`activeReserve, this`waiters, this`stages, this`held, this`heldReserve, this`sequence, this`reserve
      ensures Valid() && Drained() && id == old(sequence) && id !in old(stages)
      ensures Served(old(waiters) + [Waiter(id, reserved)], granted, waiters)
      ensures Marked(old(stages)[id := Queued], granted, stages) && reserve == old(reserve)[id := reserved]
      ensures Accounted(granted, old((active, activeReserve)), (active, activeReserve), concurrency)
      ensures LostStay(old(stages), stages)
    {
      hide Served, Marked, Waiting, Held, Pool;
      id := sequence;
      sequence := sequence + 1;
      JoinsHeld(stages, reserve, false, held, Waiter(id, reserved));
      JoinsHeld(stages, reserve, true, heldReserve, Waiter(id, reserved));
      Joins(waiters, stages, reserve, Waiter(id, reserved));
      waiters := waiters + [Waiter(id, reserved)];
      stages, reserve := stages[id := Queued], reserve[id := reserved];
      granted := Dispatch();
    }

    /** The permit of a request goes back, once: it is finished afterwards. */
    method GiveBack(id: nat)
      requires Valid() && id in stages && Holds(stages[id])
      modifies this`active, this`activeReserve, this`stages, this`held, this`heldReserve
      ensures Valid() && stages == old(stages)[id := Finished]
    {
      hide Waiting, Held;
      HeldHere(id);
      Stays(waiters, stages, reserve, id, Finished);
      StageHeld(stages, reserve, false, held, id, Finished);
      StageHeld(stages, reserve, true, heldReserve, id, Finished);
      stages := stages[id := Finished];
      if reserve[id] {
        activeReserve, heldReserve := activeReserve - 1, heldReserve - {id};
      } else {
        active, held := active - 1, held - {id};
      }
    }

    /** The release closure of a grant; its `released` flag makes a second call do nothing. */
    method Release(id: nat) returns (granted: seq<Waiter>)
      requires Valid() && Drained() && id in stages && !stages[id].Queued? && !stages[id].Lost?
      modifies this`active, this`activeReserve, this`waiters, this`stages, this`held, this`heldReserve
      ensures Valid() && Drained()
      ensures old(Holds(stages[id])) ==>
        Served(old(waiters), granted, waiters) && Marked(old(stages)[id := Finished], granted, stages)
      ensures !old(Holds(stages[id])) ==>
        granted == [] && stages == old(stages) && waiters == old(waiters) && (active, activeReserve) == old((active, activeReserve))
      ensures LostStay(old(stages), stages)
    {
      if stages[id].Finished? { return []; }
      GiveBack(id);
      granted := Dispatch();
    }

    /** The wait for a permit times out or is revoked, even after the grant: the place or the permit is given up. */
    method AdmissionStops(id: nat) returns (granted: seq<Waiter>)
      requires Valid() && Drained() && id in stages && (stages[id].Queued? || stages[id].Granted?)
      modifies this`active, this`activeReserve, this`waiters, this`stages, this`held, this`heldReserve
      ensures Valid() && Drained() && id in stages && stages[id] == Finished
      ensures old(stages[id]).Granted? ==> Served(old(waiters), granted, waiters)
      ensures old(stages[id]).Granted? ==> Marked(old(stages)[id := Finished], granted, stages)
      ensures old(stages[id]).Queued? ==> granted == [] && stages == old(stages)[id := Finished]
      ensures old(stages[id]).Queued? ==>
        exists i :: 0 <= i < |old(waiters)| && old(waiters)[i].id == id && waiters == old(waiters)[..i] + old(waiters)[i + 1..]
      ensures old(stages[id]).Queued? ==> active == old(active) && activeReserve == old(activeReserve)
      ensures LostStay(old(stages), stages)
    {
      if stages[id].Queued? {
        var i := 0;
        assert Waiter(id, reserve[id]) in waiters;
        while waiters[i].id != id
          invariant 0 <= i < |waiters| && exists k :: i <= k < |waiters| && waiters[k].id == id
          decreases |waiters| - i
        {
          i := i + 1;
        }
        Leaves(waiters, stages, reserve, i, Finished);
        waiters := waiters[..i] + waiters[i + 1..];
        stages := stages[id := Finished];
        granted := [];
      } else {
        granted := Release(id);
        assert stages[id] == Finished;
      }
    }

    /** The wait for a permit succeeds. A budget that has run out gives the permit back, and the clock has not gone
        back when the budget is checked again; otherwise `execute` is called, and when it throws (`launched` is false)
        the permit stays taken for good. */
    method Admitted(id: nat, aborted: bool, now: int, again: int, deadline: int, launched: bool) returns (started: bool, granted: seq<Waiter>)
      requires Valid() && Drained() && id in stages && stages[id].Granted? && now <= again
      modifies this`active, this`activeReserve, this`waiters, this`stages, this`held, this`heldReserve
      ensures Valid() && Drained() && id in stages
      ensures stages[id] == (if !started then Finished else if launched then Reading(false) else Lost)
      ensures started <==> !aborted && now < deadline
      ensures started ==> (active, activeReserve, waiters) == old((active, activeReserve, waiters)) && granted == []
      ensures started ==> stages == old(stages)[id := stages[id]]
      ensures !started ==> Served(old(waiters), granted, waiters) && Marked(old(stages)[id := Finished], granted, stages)
      ensures !started ==> aborted || again >= deadline
      ensures LostStay(old(stages), stages)
    {
      started, granted := !aborted && now < deadline, [];
      if started {
        var stage := if launched then Reading(false) else Lost;
        Stays(waiters, stages, reserve, id, stage);
        stages := stages[id := stage];
      } else {
        granted := Release(id);
        assert stages[id] == Finished;
      }
    }

    /** The caller stops waiting for its native read: the permit stays taken. */
    method CallerStops(id: nat)
      requires Valid() && Drained() && id in stages && stages[id].Reading?
      modifies this`stages
      ensures Valid() && Drained() && stages == old(stages)[id := Reading(true)]
      ensures LostStay(old(stages), stages)
    {
      Stays(waiters, stages, reserve, id, Reading(true));
      stages := stages[id := Reading(true)];
    }

    /** The native read settles, in whatever way: only now its permit goes back. */
    method NativeSettles(id: nat) returns (granted: seq<Waiter>)
      requires Valid() && Drained() && id in stages && stages[id].Reading?
      modifies this`active, this`activeReserve, this`waiters, this`stages, this`held, this`heldReserve
      ensures Valid() && Drained() && Served(old(waiters), granted, waiters)
      ensures Marked(old(stages)[id := Finished], granted, stages)
      ensures LostStay(old(stages), stages)
    {
      granted := Release(id);
    }
  }

  /** With one permit, a read whose `execute` throws starves every later one: by LostStay no call of the class can
      bring the permit back. */
  method LostPermitStarves() returns (transport: RemoteReadTransport, first: nat, second: nat)
    ensures transport.Valid() && transport.concurrency == 1 && transport.Full(false)
    ensures first in transport.stages && transport.stages[first].Lost?
    ensures second in transport.stages && transport.stages[second].Queued?
  {
    transport := new RemoteReadTransport(1);
    var granted, started;
    first, granted := transport.Request(false);
    started, granted := transport.Admitted(first, false, 0, 0, 1, false);
    second, granted := transport.Request(false);
    transport.HeldHere(first);
    OnlyMember(transport.held, first);
  }

  lemma OnlyMember(s: set<nat>, a: nat)
    requires a in s && |s| <= 1
    ensures s == {a}
  {
    SameSize({a}, s);
  }
}
