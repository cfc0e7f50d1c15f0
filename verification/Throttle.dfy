/** Bandwidth throttling of the task-group tree on one CPU.

    Throttling a group's runqueue counts up every runqueue below it; unthrottling counts them down
    again. Tasks that notice they are throttled leave the queue for their group's limbo list and
    come back when the group's count returns to zero. */
module Throttle {
  import opened TaskGroups

  type Task = nat

  /** The throttling side of one group's runqueue on this CPU. */
  datatype Rq = Rq(count: int, throttled: bool, limbo: seq<Task>)

  /** What the visitors work on. `queued` counts how often each task sits on a runqueue, `flagged`
      are the tasks marked throttled. */
  datatype Cpu = Cpu(rqs: map<Gid, Rq>, queued: multiset<Task>, flagged: set<Task>)

  function TgThrottleDown(s: Cpu, g: Gid): (Cpu, int) {
    if g !in s.rqs then (s, 0)
    else (s.(rqs := s.rqs[g := s.rqs[g].(count := s.rqs[g].count + 1)]), 0)
  }

  function TgUnthrottleUp(s: Cpu, g: Gid): (Cpu, int) {
    if g !in s.rqs then (s, 0)
    else
      var rq := s.rqs[g];
      if rq.count - 1 != 0 then (s.(rqs := s.rqs[g := rq.(count := rq.count - 1)]), 0)
      else
        (Cpu(s.rqs[g := rq.(count := 0, limbo := [])], s.queued + multiset(rq.limbo),
             s.flagged - set p | p in rq.limbo), 0)
  }

  function TgNop(s: Cpu, g: Gid): (Cpu, int) {
    (s, 0)
  }

  // ---------- the invariant ----------

  /** How many runqueues on the path from `g` to the root are throttled. */
  function ThrottledAbove(h: Hierarchy, rqs: map<Gid, Rq>, g: Gid): nat
    requires h.Valid() && g in h.children && rqs.Keys == h.children.Keys
    decreases h.level[g]
  {
    (if rqs[g].throttled then 1 else 0) + (if g in h.parent then ThrottledAbove(h, rqs, h.parent[g]) else 0)
  }

  /** Every task in this list belongs to the group, appears once, is marked and on no runqueue. */
  ghost predicate LimboOk(limbo: seq<Task>, g: Gid, flagged: set<Task>, home: map<Task, Gid>) {
    forall p :: p in limbo ==> p in home && home[p] == g && multiset(limbo)[p] == 1 && p in flagged
  }

  ghost predicate LimbosOk(rqs: map<Gid, Rq>, flagged: set<Task>, home: map<Task, Gid>) {
    forall g :: g in rqs ==> LimboOk(rqs[g].limbo, g, flagged, home)
  }

  /** No task is on a runqueue twice, and a marked task is on none. */
  ghost predicate QueuedOk(queued: multiset<Task>, flagged: set<Task>) {
    forall p :: queued[p] <= if p in flagged then 0 else 1
  }

  ghost predicate CountOk(h: Hierarchy, rqs: map<Gid, Rq>, g: Gid)
    requires h.Valid() && rqs.Keys == h.children.Keys && g in rqs
  {
    rqs[g].count == ThrottledAbove(h, rqs, g) && (rqs[g].limbo != [] ==> rqs[g].count > 0)
  }

  ghost predicate CountsOk(h: Hierarchy, rqs: map<Gid, Rq>)
    requires h.Valid() && rqs.Keys == h.children.Keys
  {
    forall g :: g in rqs ==> CountOk(h, rqs, g)
  }

  /** The state of the CPU is consistent: counts follow the throttled flags above, limbo lists are
      non-empty only while frozen, and every task is in one place. */
  ghost predicate CpuOk(h: Hierarchy, cpu: Cpu, home: map<Task, Gid>) {
    && h.Valid() && cpu.rqs.Keys == h.children.Keys && CountsOk(h, cpu.rqs)
    && LimbosOk(cpu.rqs, cpu.flagged, home) && QueuedOk(cpu.queued, cpu.flagged)
  }

  // ---------- what the two walks do ----------

  lemma {:induction false} ThrottleFold(s: Cpu, tr: seq<Event>)
    ensures var r := Fold(TgThrottleDown, TgNop, s, tr);
            && r.1 == 0 && r.0.queued == s.queued && r.0.flagged == s.flagged && r.0.rqs.Keys == s.rqs.Keys
            && forall g :: g in s.rqs ==> r.0.rqs[g] == s.rqs[g].(count := s.rqs[g].count + Visits(tr, Down(g)))
    decreases |tr|
  {
    if tr != [] {
      var s1 := if tr[0].Down? then TgThrottleDown(s, tr[0].g).0 else s;
      ThrottleFold(s1, tr[1..]);
      assert tr == [tr[0]] + tr[1..];
    }
  }

  function Left(rq: Rq): Rq {
    if rq.count == 1 then rq.(count := 0, limbo := []) else rq.(count := rq.count - 1)
  }

  /** How often a task is put back by a walk over `tr`: once if its group is left with its count
      at one and the task is in its limbo list. */
  function PutBack(s: Cpu, home: map<Task, Gid>, tr: seq<Event>, p: Task): nat {
    if p in home && home[p] in s.rqs && s.rqs[home[p]].count == 1 && Visits(tr, Up(home[p])) == 1
    then multiset(s.rqs[home[p]].limbo)[p] else 0
  }

  lemma {:induction false} UnthrottleFold(s: Cpu, tr: seq<Event>)
    requires forall g :: Visits(tr, Up(g)) <= 1
    ensures var r := Fold(TgNop, TgUnthrottleUp, s, tr);
            && r.1 == 0 && r.0.rqs.Keys == s.rqs.Keys
            && forall g :: g in s.rqs ==>
                 r.0.rqs[g] == if Visits(tr, Up(g)) == 1 then Left(s.rqs[g]) else s.rqs[g]
    decreases |tr|
  {
    if tr != [] {
      var e, rest := tr[0], tr[1..];
      VisitsSplit(tr);
      UnthrottleFold(if e.Down? then s else TgUnthrottleUp(s, e.g).0, rest);
    }
  }

  lemma VisitsSplit(tr: seq<Event>)
    requires tr != []
    ensures forall x :: Visits(tr, x) == (if x == tr[0] then 1 else 0) + Visits(tr[1..], x)
  {
    assert tr == [tr[0]] + tr[1..];
  }

  /** The fate of one task during the walk. */
  lemma {:induction false} UnthrottleTask(s: Cpu, home: map<Task, Gid>, tr: seq<Event>, p: Task)
    requires forall g :: Visits(tr, Up(g)) <= 1
    requires forall g :: g in s.rqs && p in s.rqs[g].limbo ==> p in home && home[p] == g
    ensures var r := Fold(TgNop, TgUnthrottleUp, s, tr).0;
            && r.queued[p] == s.queued[p] + PutBack(s, home, tr, p)
            && (p in r.flagged <==> p in s.flagged && PutBack(s, home, tr, p) == 0)
    decreases |tr|
  {
    if tr != [] {
      var e, rest := tr[0], tr[1..];
      VisitsSplit(tr);
      var s1 := if e.Down? then s else TgUnthrottleUp(s, e.g).0;
      UnthrottleTask(s1, home, rest, p);
    }
  }

  // ---------- counts follow the throttled flags ----------

  lemma {:induction false} FlagChangesCounts(h: Hierarchy, rqs: map<Gid, Rq>, rqs': map<Gid, Rq>, g: Gid, x: Gid)
    requires h.Valid() && rqs.Keys == rqs'.Keys == h.children.Keys && g in rqs && x in rqs
    requires !rqs[g].throttled && rqs'[g].throttled
    requires forall y :: y in rqs && y != g ==> rqs'[y].throttled == rqs[y].throttled
    ensures ThrottledAbove(h, rqs', x) == ThrottledAbove(h, rqs, x) + (if h.Under(g, x) then 1 else 0)
    decreases h.level[x]
  {
    if x == g {
      if x in h.parent {
        if h.Under(g, h.parent[x]) {
          UnderIsDeeper(h, g, h.parent[x]);
        }
        FlagChangesCounts(h, rqs, rqs', g, h.parent[x]);
      }
    } else if x in h.parent {
      FlagChangesCounts(h, rqs, rqs', g, h.parent[x]);
    }
  }

  class ThrottledCpu {
    var h: Hierarchy
    var cpu: Cpu
    var home: map<Task, Gid>  // the group whose runqueue each task belongs to

    ghost predicate Valid()
      reads this
    {
      CpuOk(h, cpu, home)
    }

    /** A CPU with only the root group, and nothing on it. */
    constructor (root: Gid)
      ensures Valid() && h.children == map[root := []] && cpu.queued == multiset{} && cpu.flagged == {}
      ensures cpu.rqs == map[root := Rq(0, false, [])] && home == map[] && h.parent == map[]
    {
      h := Hierarchy(map[], map[root := []], map[root := 0], 0);
      cpu := Cpu(map[root := Rq(0, false, [])], multiset{}, {});
      home := map[];
    }

    /** Throttle a group's runqueue: count up everything below it. A runqueue newly frozen has an
        empty limbo list, so the warning about leftovers cannot fire. */
    method ThrottleCfsRq(g: Gid)
      requires Valid() && g in h.children && !cpu.rqs[g].throttled
      modifies this`cpu
      ensures Valid() && cpu.rqs[g].throttled
      ensures cpu.queued == old(cpu.queued) && cpu.flagged == old(cpu.flagged)
      ensures forall x :: x in h.children ==>
                cpu.rqs[x] == Rq(old(cpu.rqs)[x].count + (if h.Under(g, x) then 1 else 0),
                                 old(cpu.rqs)[x].throttled || x == g, old(cpu.rqs)[x].limbo)
      ensures forall x :: x in h.children && old(cpu.rqs)[x].count == 0 ==> cpu.rqs[x].limbo == []
    {
      hide ThrottledAbove, LimboOk, QueuedOk, Hierarchy.Valid, Fold, Trace, TgNop, TgThrottleDown;
      assert forall x :: x in h.children ==> CountOk(h, cpu.rqs, x);
      ThrottleSpec(h, cpu, home, g);
      var walked, _ := WalkTgTreeFrom(h, g, TgThrottleDown, TgNop, cpu);
      cpu := walked.(rqs := walked.rqs[g := walked.rqs[g].(throttled := true)]);
    }

    /** Unthrottle: count down everything below, and where a count returns to zero put every limbo
        task back on its runqueue, each exactly once. Without runtime left nothing happens. */
    method UnthrottleCfsRq(g: Gid, hasRuntime: bool)
      requires Valid() && g in h.children && cpu.rqs[g].throttled
      modifies this`cpu
      ensures Valid()
      ensures !hasRuntime ==> cpu == old(cpu)
      ensures hasRuntime ==> Thawed(h, old(cpu), cpu, home, g)
    {
      hide CountsOk, LimbosOk, QueuedOk, Thawed, Hierarchy.Valid, Fold, Trace, TgNop, TgUnthrottleUp;
      if !hasRuntime {
        return;
      }
      var start := cpu.(rqs := cpu.rqs[g := cpu.rqs[g].(throttled := false)]);
      UnthrottleSpec(h, cpu, home, g);
      var walked, _ := WalkTgTreeFrom(h, g, TgNop, TgUnthrottleUp, start);
      cpu := walked;
    }

    /** A new group joins under `parent` with its parent's count, as every runqueue above it that
        is throttled is above the new one too. */
    method OnlineGroup(g: Gid, parent: Gid)
      requires Valid() && parent in h.children && g !in h.children && g !in h.parent
      modifies this`h, this`cpu
      ensures Valid() && h.parent == old(h.parent)[g := parent]
      ensures h.children == old(h.children)[parent := [g] + old(h.children)[parent]][g := []]
      ensures cpu == old(cpu).(rqs := old(cpu.rqs)[g := Rq(old(cpu.rqs)[parent].count, false, [])])
    {
      hide CountOk, LimboOk, QueuedOk, Hierarchy.Valid;
      OnlineSpec(h, cpu, home, g, parent);
      cpu := cpu.(rqs := cpu.rqs[g := Rq(cpu.rqs[parent].count, false, [])]);
      h := WithChild(h, g, parent);
    }

    /** A running task reaches user space: if anything above it is throttled it moves to limbo. An
        exiting task and one that has left the class meanwhile are left alone, and the warning about
        a task already in limbo cannot fire. */
    method ThrottleWork(p: Task, exiting: bool, isFair: bool) returns (warned: bool)
      requires Valid() && p in home && home[p] in h.children && (isFair ==> cpu.queued[p] == 1)
      modifies this`cpu
      ensures Valid() && !warned
      ensures var moves := !exiting && isFair && old(cpu.rqs[home[p]].count) != 0;
              && (!moves ==> cpu == old(cpu))
              && (moves ==>
                    && cpu.queued == old(cpu.queued) - multiset{p}
                    && cpu.rqs == WithLimbo(old(cpu.rqs), home[p], [p] + old(cpu.rqs[home[p]].limbo))
                    && cpu.flagged == old(cpu.flagged) + {p})
    {
      hide Hierarchy.Valid, CountsOk, LimbosOk, QueuedOk;
      warned := false;
      if exiting || !isFair {
        return;
      }
      var g := home[p];
      if cpu.rqs[g].count == 0 {
        return;
      }
      RunningEntersLimbo(h, cpu, home, p);
      warned := p in cpu.flagged || p in cpu.rqs[g].limbo;
      cpu := Cpu(WithLimbo(cpu.rqs, g, [p] + cpu.rqs[g].limbo), cpu.queued - multiset{p}, cpu.flagged + {p});
    }

    /** Take a task off: a throttled one leaves its limbo list and, if it went to sleep, is no
        longer marked; any other leaves its runqueue. A throttled one is never still on a runqueue. */
    method DequeueTask(p: Task, sleep: bool) returns (warned: bool)
      requires Valid() && p in home && home[p] in h.children
      requires p in cpu.flagged ==> p in cpu.rqs[home[p]].limbo
      modifies this`cpu
      ensures Valid() && !warned && cpu.queued[p] == 0 && p !in cpu.rqs[home[p]].limbo
      ensures cpu.flagged == (if sleep then old(cpu.flagged) - {p} else old(cpu.flagged))
      ensures forall q :: q != p ==> cpu.queued[q] == old(cpu.queued)[q]
      ensures p !in old(cpu.flagged) ==> cpu.rqs == old(cpu.rqs)
      ensures p in old(cpu.flagged) ==>
                cpu.rqs == WithLimbo(old(cpu.rqs), home[p], Without(old(cpu.rqs[home[p]].limbo), p))
    {
      hide Hierarchy.Valid, CountsOk, LimbosOk, QueuedOk, Without;
      var g := home[p];
      warned := false;
      if p in cpu.flagged {
        ThrottledLeaves(h, cpu, home, p, sleep);
        warned := cpu.queued[p] != 0;
        cpu := cpu.(rqs := WithLimbo(cpu.rqs, g, Without(cpu.rqs[g].limbo, p)),
                    flagged := if sleep then cpu.flagged - {p} else cpu.flagged);
      } else {
        QueuedLeaves(h, cpu, home, p);
        cpu := cpu.(queued := cpu.queued[p := 0]);
      }
    }

    /** Put a task on group `g`: one still marked throttled goes straight to limbo if that group is
        frozen and it is not the current task, otherwise the mark is cleared and it is queued. */
    method EnqueueTask(p: Task, g: Gid, isCurrent: bool)
      requires Valid() && g in h.children && cpu.queued[p] == 0
      requires forall x :: x in h.children ==> p !in cpu.rqs[x].limbo
      modifies this`cpu, this`home
      ensures Valid() && home == old(home)[p := g]
      ensures var limbo := p in old(cpu.flagged) && old(cpu.rqs)[g].count > 0 && !isCurrent;
              && cpu.queued == (if limbo then old(cpu.queued) else old(cpu.queued) + multiset{p})
              && cpu.flagged == (if limbo then old(cpu.flagged) else old(cpu.flagged) - {p})
              && cpu.rqs == (if limbo then WithLimbo(old(cpu.rqs), g, [p] + old(cpu.rqs)[g].limbo) else old(cpu.rqs))
    {
      hide Hierarchy.Valid, ThrottledAbove;
      assert CountOk(h, cpu.rqs, g);
      StaysOut(cpu.rqs, cpu.flagged, home, g, p);
      home := home[p := g];
      if p in cpu.flagged && cpu.rqs[g].count != 0 && !isCurrent {
        LimboStep(h, cpu, g, [p] + cpu.rqs[g].limbo);
        IntoLimbo(cpu.rqs, cpu.flagged - {p}, home, g, p);
        assert cpu.flagged - {p} + {p} == cpu.flagged;
        cpu := cpu.(rqs := cpu.rqs[g := cpu.rqs[g].(limbo := [p] + cpu.rqs[g].limbo)]);
      } else {
        cpu := cpu.(queued := cpu.queued + multiset{p}, flagged := cpu.flagged - {p});
      }
    }
  }

  function WithLimbo(rqs: map<Gid, Rq>, g: Gid, limbo: seq<Task>): map<Gid, Rq>
    requires g in rqs
  {
    rqs[g := rqs[g].(limbo := limbo)]
  }

  lemma RunningEntersLimbo(h: Hierarchy, cpu: Cpu, home: map<Task, Gid>, p: Task)
    requires CpuOk(h, cpu, home) && p in home && home[p] in cpu.rqs && cpu.queued[p] == 1 && cpu.rqs[home[p]].count != 0
    ensures p !in cpu.flagged && p !in cpu.rqs[home[p]].limbo
    ensures var rqs := WithLimbo(cpu.rqs, home[p], [p] + cpu.rqs[home[p]].limbo);
            CpuOk(h, Cpu(rqs, cpu.queued - multiset{p}, cpu.flagged + {p}), home)
  {
    hide Hierarchy.Valid, ThrottledAbove;
    var g := home[p];
    assert CountOk(h, cpu.rqs, g) && LimboOk(cpu.rqs[g].limbo, g, cpu.flagged, home);
    hide CountOk;
    LimboStep(h, cpu, g, [p] + cpu.rqs[g].limbo);
    IntoLimbo(cpu.rqs, cpu.flagged, home, g, p);
    hide LimbosOk, LimboOk;
  }

  lemma ThrottledLeaves(h: Hierarchy, cpu: Cpu, home: map<Task, Gid>, p: Task, sleep: bool)
    requires CpuOk(h, cpu, home) && p in home && home[p] in cpu.rqs && p in cpu.flagged && p in cpu.rqs[home[p]].limbo
    ensures var rest := Without(cpu.rqs[home[p]].limbo, p);
            && p !in rest && cpu.queued[p] == 0
            && var flagged := if sleep then cpu.flagged - {p} else cpu.flagged;
               CpuOk(h, cpu.(rqs := WithLimbo(cpu.rqs, home[p], rest), flagged := flagged), home)
  {
    hide Hierarchy.Valid, ThrottledAbove, Without, LimboOk;
    var g := home[p];
    assert CountOk(h, cpu.rqs, g);
    hide CountOk;
    LimboStep(h, cpu, g, Without(cpu.rqs[g].limbo, p));
    OutOfLimbo(cpu.rqs, cpu.flagged, home, g, p);
    hide LimbosOk;
  }

  lemma QueuedLeaves(h: Hierarchy, cpu: Cpu, home: map<Task, Gid>, p: Task)
    requires CpuOk(h, cpu, home) && p in home && home[p] in cpu.rqs && p !in cpu.flagged
    ensures p !in cpu.rqs[home[p]].limbo && CpuOk(h, cpu.(queued := cpu.queued[p := 0]), home)
  {
    hide Hierarchy.Valid, ThrottledAbove, CountOk;
    assert LimboOk(cpu.rqs[home[p]].limbo, home[p], cpu.flagged, home);
  }

  lemma ThrottleSpec(h: Hierarchy, cpu: Cpu, home: map<Task, Gid>, g: Gid)
    requires CpuOk(h, cpu, home) && g in h.children && !cpu.rqs[g].throttled
    ensures var walked := Fold(TgThrottleDown, TgNop, cpu, Trace(h, g)).0;
            && g in walked.rqs
            && var cpu' := walked.(rqs := walked.rqs[g := walked.rqs[g].(throttled := true)]);
            && CpuOk(h, cpu', home) && cpu'.queued == cpu.queued && cpu'.flagged == cpu.flagged
            && forall x :: x in h.children ==>
                 cpu'.rqs[x] == Rq(cpu.rqs[x].count + (if h.Under(g, x) then 1 else 0),
                                   cpu.rqs[x].throttled || x == g, cpu.rqs[x].limbo)
  {
    hide CountOk, LimboOk, QueuedOk, Hierarchy.Valid, Fold, Visits;
    ThrottleFold(cpu, Trace(h, g));
    var walked := Fold(TgThrottleDown, TgNop, cpu, Trace(h, g)).0;
    var cpu' := walked.(rqs := walked.rqs[g := walked.rqs[g].(throttled := true)]);
    ThrottledCounts(h, cpu.rqs, cpu'.rqs, g);
  }

  lemma UnthrottleSpec(h: Hierarchy, cpu: Cpu, home: map<Task, Gid>, g: Gid)
    requires CpuOk(h, cpu, home) && g in h.children && cpu.rqs[g].throttled
    ensures var start := cpu.(rqs := cpu.rqs[g := cpu.rqs[g].(throttled := false)]);
            var cpu' := Fold(TgNop, TgUnthrottleUp, start, Trace(h, g)).0;
            CpuOk(h, cpu', home) && Thawed(h, cpu, cpu', home, g)
  {
    hide CountOk, LimboOk, QueuedOk, Released, Counted, Hierarchy.Valid, Fold, Visits;
    var start := cpu.(rqs := cpu.rqs[g := cpu.rqs[g].(throttled := false)]);
    VisitedAtMostOnce(h, g);
    UnthrottleFold(start, Trace(h, g));
    var cpu' := Fold(TgNop, TgUnthrottleUp, start, Trace(h, g)).0;
    UnthrottledCounts(h, cpu.rqs, cpu'.rqs, g);
    ReleasedTasks(h, cpu, cpu', home, g);
  }

  lemma OnlineSpec(h: Hierarchy, cpu: Cpu, home: map<Task, Gid>, g: Gid, parent: Gid)
    requires CpuOk(h, cpu, home) && parent in h.children && g !in h.children && g !in h.parent
    ensures CpuOk(WithChild(h, g, parent), cpu.(rqs := cpu.rqs[g := Rq(cpu.rqs[parent].count, false, [])]), home)
  {
    hide Hierarchy.Valid, LimboOk, QueuedOk;
    WithChildValid(h, g, parent);
    var h' := WithChild(h, g, parent);
    var rqs' := cpu.rqs[g := Rq(cpu.rqs[parent].count, false, [])];
    forall x | x in h'.children
      ensures CountOk(h', rqs', x)
    {
      NewGroupCount(h, cpu.rqs, h', rqs', g, parent, x);
    }
    forall x | x in rqs'
      ensures LimboOk(rqs'[x].limbo, x, cpu.flagged, home)
    {
      EmptyLimboOk(x, cpu.flagged, home);
    }
  }

  lemma EmptyLimboOk(g: Gid, flagged: set<Task>, home: map<Task, Gid>)
    ensures LimboOk([], g, flagged, home)
  {
  }

  lemma NewGroupCount(h: Hierarchy, rqs: map<Gid, Rq>, h': Hierarchy, rqs': map<Gid, Rq>, g: Gid, parent: Gid, x: Gid)
    requires h.Valid() && parent in h.children && g !in h.children && g !in h.parent
    requires h' == WithChild(h, g, parent) && h'.Valid() && rqs.Keys == h.children.Keys && CountsOk(h, rqs)
    requires rqs' == rqs[g := Rq(rqs[parent].count, false, [])] && x in h'.children && rqs'.Keys == h'.children.Keys
    ensures CountOk(h', rqs', x)
  {
    var y := if x == g then parent else x;
    NewGroupKeepsCounts(h, rqs, h', rqs', g, parent, y);
    assert CountOk(h, rqs, y);
  }

  /** Changing one limbo list of a frozen group leaves all counts right. */
  lemma LimboStep(h: Hierarchy, cpu: Cpu, g: Gid, limbo: seq<Task>)
    requires h.Valid() && cpu.rqs.Keys == h.children.Keys && CountsOk(h, cpu.rqs) && g in cpu.rqs
    requires limbo != [] ==> cpu.rqs[g].count > 0
    ensures CountsOk(h, cpu.rqs[g := cpu.rqs[g].(limbo := limbo)])
  {
    hide Hierarchy.Valid, ThrottledAbove;
    var rqs' := cpu.rqs[g := cpu.rqs[g].(limbo := limbo)];
    SameFlagsSameCounts(h, cpu.rqs, rqs');
    forall x | x in rqs'
      ensures CountOk(h, rqs', x)
    {
      assert CountOk(h, cpu.rqs, x);
    }
  }

  /** The CPU before and after unthrottling `g`: each count follows, and exactly the tasks whose group
      thawed are back on a runqueue, once, and unmarked. */
  ghost predicate Thawed(h: Hierarchy, before: Cpu, after: Cpu, home: map<Task, Gid>, g: Gid) {
    && h.Valid() && before.rqs.Keys == after.rqs.Keys == h.children.Keys
    && (forall x :: x in h.children ==> Counted(h, before.rqs[x], after.rqs[x], g, x))
    && (forall p ::
          && after.queued[p] == before.queued[p] + (if Released(h, before, after, home, p) then 1 else 0)
          && (p in after.flagged <==> p in before.flagged && !Released(h, before, after, home, p)))
  }

  /** One group's runqueue before and after unthrottling `g`. */
  ghost predicate Counted(h: Hierarchy, rq: Rq, rq': Rq, g: Gid, x: Gid)
    requires h.Valid() && x in h.children
  {
    && rq'.count == rq.count - (if h.Under(g, x) then 1 else 0)
    && rq'.limbo == (if rq'.count == 0 then [] else rq.limbo)
    && rq'.throttled == (rq.throttled && x != g)
  }

  lemma IntoLimbo(rqs: map<Gid, Rq>, flagged: set<Task>, home: map<Task, Gid>, g: Gid, p: Task)
    requires LimbosOk(rqs, flagged, home) && g in rqs && p in home && home[p] == g && p !in flagged
    ensures LimbosOk(rqs[g := rqs[g].(limbo := [p] + rqs[g].limbo)], flagged + {p}, home)
  {
    forall x | x in rqs
      ensures LimboOk(if x == g then [p] + rqs[g].limbo else rqs[x].limbo, x, flagged + {p}, home)
    {
      assert LimboOk(rqs[x].limbo, x, flagged, home);
      assert p !in rqs[x].limbo;
    }
  }

  lemma OutOfLimbo(rqs: map<Gid, Rq>, flagged: set<Task>, home: map<Task, Gid>, g: Gid, p: Task)
    requires LimbosOk(rqs, flagged, home) && g in rqs && p in rqs[g].limbo
    ensures p !in Without(rqs[g].limbo, p)
    ensures LimbosOk(rqs[g := rqs[g].(limbo := Without(rqs[g].limbo, p))], flagged - {p}, home)
    ensures LimbosOk(rqs[g := rqs[g].(limbo := Without(rqs[g].limbo, p))], flagged, home)
  {
    hide LimboOk;
    OutOfList(rqs[g].limbo, g, flagged, home, p);
    forall x | x in rqs && x != g
      ensures LimboOk(rqs[x].limbo, x, flagged - {p}, home)
    {
      NotInOtherList(rqs[x].limbo, x, rqs[g].limbo, g, flagged, home, p);
    }
  }

  lemma OutOfList(limbo: seq<Task>, g: Gid, flagged: set<Task>, home: map<Task, Gid>, p: Task)
    requires LimboOk(limbo, g, flagged, home) && p in limbo
    ensures p !in Without(limbo, p)
    ensures LimboOk(Without(limbo, p), g, flagged - {p}, home) && LimboOk(Without(limbo, p), g, flagged, home)
  {
    var rest := Without(limbo, p);
    var left: multiset<Task> := multiset(rest);
    assert left == multiset(limbo) - multiset{p} && p !in left;
    forall q | q in rest
      ensures q in limbo && left[q] == 1 && q != p
    {
      assert q in left;
    }
  }

  lemma NotInOtherList(limbo: seq<Task>, x: Gid, other: seq<Task>, g: Gid, flagged: set<Task>,
                       home: map<Task, Gid>, p: Task)
    requires LimboOk(limbo, x, flagged, home) && LimboOk(other, g, flagged, home) && p in other && x != g
    ensures LimboOk(limbo, x, flagged - {p}, home)
  {
  }

  lemma StaysOut(rqs: map<Gid, Rq>, flagged: set<Task>, home: map<Task, Gid>, g: Gid, p: Task)
    requires LimbosOk(rqs, flagged, home) && forall x :: x in rqs ==> p !in rqs[x].limbo
    ensures LimbosOk(rqs, flagged - {p}, home[p := g])
  {
    forall x | x in rqs
      ensures LimboOk(rqs[x].limbo, x, flagged - {p}, home[p := g])
    {
      assert LimboOk(rqs[x].limbo, x, flagged, home);
    }
  }

  lemma VisitedAtMostOnce(h: Hierarchy, g: Gid)
    requires h.Valid() && g in h.children
    ensures forall x :: Visits(Trace(h, g), Up(x)) <= 1
  {
    forall x
      ensures Visits(Trace(h, g), Up(x)) <= 1
    {
      if x in h.children {
        TraceVisitsSubtreeOnce(h, g, x);
      } else {
        TraceStaysInside(h, g, x);
      }
    }
  }

  lemma {:induction false} TraceStaysInside(h: Hierarchy, g: Gid, x: Gid)
    requires h.Valid() && g in h.children && x !in h.children
    ensures Visits(Trace(h, g), Up(x)) == 0
    decreases h.height - h.level[g], |h.children[g]| + 1
  {
    ChildrenStayInside(h, g, 0, x);
    assert multiset(Trace(h, g)) == multiset([Down(g)]) + multiset(TraceFrom(h, g, 0)) + multiset([Up(g)]);
  }

  lemma {:induction false} ChildrenStayInside(h: Hierarchy, g: Gid, i: nat, x: Gid)
    requires h.Valid() && g in h.children && x !in h.children && i <= |h.children[g]|
    ensures Visits(TraceFrom(h, g, i), Up(x)) == 0
    decreases h.height - h.level[g], |h.children[g]| - i
  {
    if i < |h.children[g]| {
      TraceStaysInside(h, h.children[g][i], x);
      ChildrenStayInside(h, g, i + 1, x);
      assert multiset(TraceFrom(h, g, i)) == multiset(Trace(h, h.children[g][i])) + multiset(TraceFrom(h, g, i + 1));
    }
  }

  lemma UnthrottledCount(h: Hierarchy, rqs: map<Gid, Rq>, rqs': map<Gid, Rq>, g: Gid, x: Gid)
    requires h.Valid() && rqs.Keys == rqs'.Keys == h.children.Keys && CountsOk(h, rqs)
    requires g in rqs && x in rqs && rqs[g].throttled && !rqs'[g].throttled
    requires forall y :: y in rqs && y != g ==> rqs'[y].throttled == rqs[y].throttled
    requires var rq := rqs[x].(throttled := rqs[x].throttled && x != g);
             rqs'[x] == if Visits(Trace(h, g), Up(x)) == 1 then Left(rq) else rq
    ensures Counted(h, rqs[x], rqs'[x], g, x) && CountOk(h, rqs', x)
  {
    TraceVisitsSubtreeOnce(h, g, x);
    FlagChangesCounts(h, rqs', rqs, g, x);
    assert CountOk(h, rqs, x);
  }

  lemma UnthrottledCounts(h: Hierarchy, rqs: map<Gid, Rq>, rqs': map<Gid, Rq>, g: Gid)
    requires h.Valid() && rqs.Keys == rqs'.Keys == h.children.Keys && CountsOk(h, rqs)
    requires g in rqs && rqs[g].throttled
    requires forall x :: x in rqs ==>
               var rq := rqs[x].(throttled := rqs[x].throttled && x != g);
               rqs'[x] == if Visits(Trace(h, g), Up(x)) == 1 then Left(rq) else rq
    ensures CountsOk(h, rqs')
    ensures forall x :: x in h.children ==> Counted(h, rqs[x], rqs'[x], g, x)
  {
    hide CountOk, Counted, Hierarchy.Valid;
    forall x | x in h.children
      ensures Counted(h, rqs[x], rqs'[x], g, x) && CountOk(h, rqs', x)
    {
      UnthrottledCount(h, rqs, rqs', g, x);
    }
  }

  lemma ThrottledCount(h: Hierarchy, rqs: map<Gid, Rq>, rqs': map<Gid, Rq>, g: Gid, x: Gid)
    requires h.Valid() && rqs.Keys == rqs'.Keys == h.children.Keys && CountsOk(h, rqs)
    requires g in rqs && x in rqs && !rqs[g].throttled && rqs'[g].throttled
    requires forall y :: y in rqs && y != g ==> rqs'[y].throttled == rqs[y].throttled
    requires rqs'[x].count == rqs[x].count + Visits(Trace(h, g), Down(x)) && rqs'[x].limbo == rqs[x].limbo
    ensures CountOk(h, rqs', x) && rqs'[x].count == rqs[x].count + (if h.Under(g, x) then 1 else 0)
  {
    TraceVisitsSubtreeOnce(h, g, x);
    FlagChangesCounts(h, rqs, rqs', g, x);
    assert CountOk(h, rqs, x);
  }

  lemma ThrottledCounts(h: Hierarchy, rqs: map<Gid, Rq>, rqs': map<Gid, Rq>, g: Gid)
    requires h.Valid() && rqs.Keys == rqs'.Keys == h.children.Keys && CountsOk(h, rqs)
    requires g in rqs && !rqs[g].throttled
    requires forall x :: x in rqs ==>
               rqs'[x] == Rq(rqs[x].count + Visits(Trace(h, g), Down(x)), rqs[x].throttled || x == g, rqs[x].limbo)
    ensures CountsOk(h, rqs')
    ensures forall x :: x in h.children ==> rqs'[x].count == rqs[x].count + (if h.Under(g, x) then 1 else 0)
  {
    hide CountOk, Hierarchy.Valid;
    forall x | x in h.children
      ensures CountOk(h, rqs', x) && rqs'[x].count == rqs[x].count + (if h.Under(g, x) then 1 else 0)
    {
      ThrottledCount(h, rqs, rqs', g, x);
    }
  }

  /** A task comes back exactly if it was in the limbo list of a group whose count reached zero. */
  ghost predicate Released(h: Hierarchy, before: Cpu, after: Cpu, home: map<Task, Gid>, p: Task)
    requires before.rqs.Keys == after.rqs.Keys == h.children.Keys
  {
    p in home && home[p] in h.children && p in before.rqs[home[p]].limbo && after.rqs[home[p]].count == 0
  }

  /** What the walk puts back is what was to be released. */
  lemma PutBackIsReleased(h: Hierarchy, before: Cpu, start: Cpu, after: Cpu, home: map<Task, Gid>, g: Gid, p: Task)
    requires h.Valid() && g in h.children && before.rqs.Keys == after.rqs.Keys == h.children.Keys
    requires CountsOk(h, before.rqs) && LimbosOk(before.rqs, before.flagged, home)
    requires start == before.(rqs := before.rqs[g := before.rqs[g].(throttled := false)])
    requires forall x :: x in h.children ==> Counted(h, before.rqs[x], after.rqs[x], g, x)
    ensures PutBack(start, home, Trace(h, g), p) == if Released(h, before, after, home, p) then 1 else 0
  {
    hide ThrottledAbove, Hierarchy.Valid, Visits, Trace;
    if p in home && home[p] in h.children {
      var x := home[p];
      TraceVisitsSubtreeOnce(h, g, x);
      assert LimboOk(before.rqs[x].limbo, x, before.flagged, home);
      assert CountOk(h, before.rqs, x);
      assert Counted(h, before.rqs[x], after.rqs[x], g, x);
      assert start.rqs[x].count == before.rqs[x].count && start.rqs[x].limbo == before.rqs[x].limbo;
    }
  }

  lemma TaskFate(h: Hierarchy, before: Cpu, start: Cpu, after: Cpu, home: map<Task, Gid>, g: Gid, p: Task)
    requires h.Valid() && g in h.children && before.rqs.Keys == after.rqs.Keys == h.children.Keys
    requires before.rqs[g].throttled && CountsOk(h, before.rqs) && LimbosOk(before.rqs, before.flagged, home)
    requires start == before.(rqs := before.rqs[g := before.rqs[g].(throttled := false)])
    requires after == Fold(TgNop, TgUnthrottleUp, start, Trace(h, g)).0
    requires forall x :: x in h.children ==> Counted(h, before.rqs[x], after.rqs[x], g, x)
    ensures after.queued[p] == before.queued[p] + (if Released(h, before, after, home, p) then 1 else 0)
    ensures p in after.flagged <==> p in before.flagged && !Released(h, before, after, home, p)
  {
    hide CountsOk, Hierarchy.Valid, Counted, Released, PutBack, Fold, Trace, Visits;
    VisitedAtMostOnce(h, g);
    forall x | x in start.rqs && p in start.rqs[x].limbo
      ensures p in home && home[p] == x
    {
      assert LimboOk(before.rqs[x].limbo, x, before.flagged, home);
    }
    UnthrottleTask(start, home, Trace(h, g), p);
    PutBackIsReleased(h, before, start, after, home, g, p);
  }

  lemma ReleasedTasks(h: Hierarchy, before: Cpu, after: Cpu, home: map<Task, Gid>, g: Gid)
    requires h.Valid() && g in h.children && before.rqs.Keys == after.rqs.Keys == h.children.Keys
    requires before.rqs[g].throttled && CountsOk(h, before.rqs)
    requires LimbosOk(before.rqs, before.flagged, home) && QueuedOk(before.queued, before.flagged)
    requires var start := before.(rqs := before.rqs[g := before.rqs[g].(throttled := false)]);
             after == Fold(TgNop, TgUnthrottleUp, start, Trace(h, g)).0
    requires forall x :: x in h.children ==> Counted(h, before.rqs[x], after.rqs[x], g, x)
    ensures LimbosOk(after.rqs, after.flagged, home) && QueuedOk(after.queued, after.flagged)
    ensures forall p ::
              && after.queued[p] == before.queued[p] + (if Released(h, before, after, home, p) then 1 else 0)
              && (p in after.flagged <==> p in before.flagged && !Released(h, before, after, home, p))
  {
    hide CountOk, Hierarchy.Valid;
    var start := before.(rqs := before.rqs[g := before.rqs[g].(throttled := false)]);
    forall p
      ensures after.queued[p] == before.queued[p] + (if Released(h, before, after, home, p) then 1 else 0)
      ensures p in after.flagged <==> p in before.flagged && !Released(h, before, after, home, p)
      ensures after.queued[p] <= if p in after.flagged then 0 else 1
    {
      TaskFate(h, before, start, after, home, g, p);
      if Released(h, before, after, home, p) {
        assert LimboOk(before.rqs[home[p]].limbo, home[p], before.flagged, home);
      }
    }
    forall x | x in after.rqs
      ensures LimboOk(after.rqs[x].limbo, x, after.flagged, home)
    {
      assert LimboOk(before.rqs[x].limbo, x, before.flagged, home);
    }
  }

  lemma {:induction false} SameFlagsAbove(h: Hierarchy, rqs: map<Gid, Rq>, rqs': map<Gid, Rq>, x: Gid)
    requires h.Valid() && rqs.Keys == rqs'.Keys == h.children.Keys && x in rqs
    requires forall y :: y in rqs ==> rqs'[y].throttled == rqs[y].throttled
    ensures ThrottledAbove(h, rqs', x) == ThrottledAbove(h, rqs, x)
    decreases h.level[x]
  {
    if x in h.parent {
      SameFlagsAbove(h, rqs, rqs', h.parent[x]);
    }
  }

  lemma SameFlagsSameCounts(h: Hierarchy, rqs: map<Gid, Rq>, rqs': map<Gid, Rq>)
    requires h.Valid() && rqs.Keys == rqs'.Keys == h.children.Keys
    requires forall y :: y in rqs ==> rqs'[y].throttled == rqs[y].throttled
    ensures forall x :: x in rqs ==> ThrottledAbove(h, rqs', x) == ThrottledAbove(h, rqs, x)
  {
    forall x | x in rqs
      ensures ThrottledAbove(h, rqs', x) == ThrottledAbove(h, rqs, x)
    {
      SameFlagsAbove(h, rqs, rqs', x);
    }
  }

  function Without(s: seq<Task>, p: Task): (r: seq<Task>)
    requires p in s
    ensures multiset(r) == multiset(s) - multiset{p}
  {
    if s[0] == p then
      assert s == [s[0]] + s[1..];
      s[1..]
    else
      assert s == [s[0]] + s[1..];
      [s[0]] + Without(s[1..], p)
  }

  // ---------- growing the tree ----------

  function WithChild(h: Hierarchy, g: Gid, parent: Gid): Hierarchy
    requires h.Valid() && parent in h.children
  {
    var level := h.level[parent] + 1;
    Hierarchy(h.parent[g := parent], h.children[parent := [g] + h.children[parent]][g := []],
              h.level[g := level], if level > h.height then level else h.height)
  }

  lemma WithChildValid(h: Hierarchy, g: Gid, parent: Gid)
    requires h.Valid() && parent in h.children && g !in h.children && g !in h.parent
    ensures WithChild(h, g, parent).Valid()
  {
    var h' := WithChild(h, g, parent);
    forall x, i | x in h'.children && 0 <= i < |h'.children[x]|
      ensures h'.children[x][i] in h'.parent && h'.parent[h'.children[x][i]] == x
    {
      if x == parent && i > 0 {
        assert h'.children[x][i] == h.children[x][i - 1];
      }
    }
    forall x, i, j | x in h'.children && 0 <= i < j < |h'.children[x]|
      ensures h'.children[x][i] != h'.children[x][j]
    {
      if x == parent {
        assert h'.children[x][j] == h.children[x][j - 1];
        assert i > 0 ==> h'.children[x][i] == h.children[x][i - 1];
      }
    }
  }

  lemma {:induction false} NewGroupKeepsCounts(h: Hierarchy, rqs: map<Gid, Rq>, h': Hierarchy, rqs': map<Gid, Rq>,
                                               g: Gid, parent: Gid, x: Gid)
    requires h.Valid() && parent in h.children && g !in h.children && g !in h.parent
    requires h' == WithChild(h, g, parent) && h'.Valid()
    requires rqs.Keys == h.children.Keys && rqs'.Keys == h'.children.Keys && x in h.children
    requires forall y :: y in rqs ==> rqs'[y].throttled == rqs[y].throttled
    ensures ThrottledAbove(h', rqs', x) == ThrottledAbove(h, rqs, x)
    decreases h.level[x]
  {
    if x in h.parent {
      NewGroupKeepsCounts(h, rqs, h', rqs', g, parent, h.parent[x]);
    }
  }
}
