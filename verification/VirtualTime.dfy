/**
 The task manager with a virtual clock, run by one thread. A task is what it will post when it runs; it
 may post for a later time, for the present or for a time already past.
 */
module VirtualTime {
  import opened Sequences

  datatype Task = Task(posts: seq<Post>)

  datatype Post = After(delay: nat, task: Task) | At(time: int, task: Task) {
    function Due(now: int): int { if After? then now + delay else time }
  }

  /** A posted task: when it is due, when it was posted and its number in the order of posting. */
  datatype Entry = Entry(due: int, posted: int, number: nat, task: Task)

  /** A task that ran: at what time, and how many tasks had been posted by then. */
  datatype Run = Run(entry: Entry, at: int, next: nat)

  datatype Manager = Manager(now: int, tasks: seq<Entry>, next: nat, log: seq<Run>) {
    function Position(due: int, n: nat): (p: nat)
      requires n <= |tasks|
      ensures p <= n
      ensures forall i :: p <= i < n ==> tasks[i].due > due
      ensures p > 0 ==> tasks[p - 1].due <= due
    {
      if n > 0 && tasks[n - 1].due > due then Position(due, n - 1) else n
    }

    function AddTask(due: int, task: Task): Manager {
      this.(tasks := InsertAt(tasks, Position(due, |tasks|), Entry(due, now, next, task)), next := next + 1)
    }

    function AddPost(p: Post): Manager {
      AddTask(p.Due(now), p.task)
    }

    function AddPosts(posts: seq<Post>): Manager
      decreases |posts|
    {
      if posts == [] then this else AddPosts(posts[..|posts| - 1]).AddPost(posts[|posts| - 1])
    }

    predicate HasTasks() { tasks != [] && tasks[0].due <= now }

    function HandleFirstTask(): Manager {
      if HasTasks() then
        this.(tasks := tasks[1..], log := log + [Run(tasks[0], now, next)]).AddPosts(tasks[0].task.posts)
      else this
    }
  }

  function Size(t: Task): nat { 1 + SizeOfPosts(t.posts) }

  function SizeOfPost(p: Post): nat { Size(p.task) }

  function SizeOfPosts(posts: seq<Post>): nat {
    if posts == [] then 0 else SizeOfPosts(posts[..|posts| - 1]) + SizeOfPost(posts[|posts| - 1])
  }

  function TotalSize(s: seq<Entry>): nat { if s == [] then 0 else Size(s[0].task) + TotalSize(s[1..]) }

  /** The order of execution: by due time, and for equal times in the order of posting. */
  predicate Before(a: Entry, b: Entry) { a.due < b.due || (a.due == b.due && a.number < b.number) }

  ghost predicate Ordered(s: seq<Entry>) { forall i, j :: 0 <= i < j < |s| ==> Before(s[i], s[j]) }

  function Max(a: int, b: int): int { if a < b then b else a }

  function Numbers(s: seq<Entry>): seq<nat> { seq(|s|, i requires 0 <= i < |s| => s[i].number) }

  function RunNumbers(s: seq<Run>): seq<nat> { seq(|s|, i requires 0 <= i < |s| => s[i].entry.number) }

  function UpTo(n: nat): seq<nat> { seq(n, i requires 0 <= i < n => i) }

  /** Nothing is lost: every number given out belongs to one task, pending or run. */
  ghost predicate Complete(m: Manager) {
    multiset(Numbers(m.tasks)) + multiset(RunNumbers(m.log)) == multiset(UpTo(m.next))
  }

  ghost predicate Numbered(m: Manager) {
    && (forall e :: e in m.tasks ==> e.number < m.next && e.posted <= m.now && (m.now <= e.due || e.posted == m.now))
    && (forall r :: r in m.log ==> r.next <= m.next)
  }

  /** Tasks ran on time, and a task ran before another one unless that had run when it was posted. */
  ghost predicate InOrder(m: Manager) {
    && (forall r :: r in m.log ==> r.at == Max(r.entry.due, r.entry.posted))
    && (forall i, j :: 0 <= i < j < |m.log| ==>
          Before(m.log[i].entry, m.log[j].entry) || m.log[j].entry.number >= m.log[i].next)
    && (forall r, e :: r in m.log && e in m.tasks ==> Before(r.entry, e) || e.number >= r.next)
  }

  ghost predicate Valid(m: Manager) { Ordered(m.tasks) && Complete(m) && Numbered(m) && InOrder(m) }

  lemma AddTaskOrdered(m: Manager, due: int, task: Task)
    requires Ordered(m.tasks) && forall e :: e in m.tasks ==> e.number < m.next
    ensures Ordered(m.AddTask(due, task).tasks)
  {
    var p := m.Position(due, |m.tasks|);
    var x := Entry(due, m.now, m.next, task);
    forall i | 0 <= i < p ensures Before(m.tasks[i], x) {
      assert m.tasks[i] in m.tasks;
      assert i < p - 1 ==> Before(m.tasks[i], m.tasks[p - 1]);
    }
    InsertOrdered(m.tasks, p, x);
  }

  lemma InsertOrdered(s: seq<Entry>, p: nat, x: Entry)
    requires Ordered(s) && p <= |s|
    requires (forall i :: 0 <= i < p ==> Before(s[i], x)) && (forall i :: p <= i < |s| ==> Before(x, s[i]))
    ensures Ordered(InsertAt(s, p, x))
  {
    var r := InsertAt(s, p, x);
    forall i, j | 0 <= i < j < |r| ensures Before(r[i], r[j]) {
      if i != p && j != p {
        assert Before(s[if i < p then i else i - 1], s[if j < p then j else j - 1]);
      }
    }
  }

  lemma AddTaskMembers(m: Manager, due: int, task: Task)
    ensures forall e :: e in m.AddTask(due, task).tasks <==> e in m.tasks || e == Entry(due, m.now, m.next, task)
  {
    var p := m.Position(due, |m.tasks|);
    var x := Entry(due, m.now, m.next, task);
    var r := m.AddTask(due, task).tasks;
    assert multiset(r) == multiset(m.tasks) + multiset{x};
    forall e ensures e in r <==> e in m.tasks || e == x {
      assert e in r <==> e in multiset(r);
      assert e in m.tasks <==> e in multiset(m.tasks);
    }
  }

  lemma AddTaskComplete(m: Manager, due: int, task: Task)
    requires Complete(m)
    ensures Complete(m.AddTask(due, task))
  {
    hide Manager.Position;
    var p := m.Position(due, |m.tasks|);
    var r := m.AddTask(due, task);
    NumbersInsert(m.tasks, p, Entry(due, m.now, m.next, task));
    assert UpTo(r.next) == UpTo(m.next) + [m.next];
  }

  lemma NumbersInsert(s: seq<Entry>, p: nat, x: Entry)
    requires p <= |s|
    ensures Numbers(InsertAt(s, p, x)) == InsertAt(Numbers(s), p, x.number)
  {
  }

  /** What posting tasks worth `size` keeps. */
  ghost predicate Grown(m: Manager, r: Manager, size: nat) {
    Valid(r) && r.now == m.now && r.log == m.log && TotalSize(r.tasks) == TotalSize(m.tasks) + size
  }

  lemma AddTaskValid(m: Manager, due: int, task: Task)
    requires Valid(m)
    ensures Grown(m, m.AddTask(due, task), Size(task))
  {
    AddTaskOrdered(m, due, task);
    AddTaskComplete(m, due, task);
    AddTaskInOrder(m, due, task);
    InsertSize(m.tasks, m.Position(due, |m.tasks|), Entry(due, m.now, m.next, task));
  }

  lemma AddTaskInOrder(m: Manager, due: int, task: Task)
    requires Numbered(m) && InOrder(m)
    ensures Numbered(m.AddTask(due, task)) && InOrder(m.AddTask(due, task))
  {
    AddTaskMembers(m, due, task);
  }

  lemma {:induction false} InsertSize(s: seq<Entry>, p: nat, x: Entry)
    requires p <= |s|
    ensures TotalSize(InsertAt(s, p, x)) == TotalSize(s) + Size(x.task)
  {
    if p > 0 {
      InsertSize(s[1..], p - 1, x);
      assert InsertAt(s, p, x)[1..] == InsertAt(s[1..], p - 1, x);
    } else {
      assert InsertAt(s, p, x)[1..] == s;
    }
  }

  lemma {:induction false} AddPostsValid(m: Manager, posts: seq<Post>)
    requires Valid(m)
    ensures Grown(m, m.AddPosts(posts), SizeOfPosts(posts))
    decreases |posts|
  {
    if posts != [] {
      var k := |posts| - 1;
      var r := m.AddPosts(posts[..k]);
      AddPostsValid(m, posts[..k]);
      AddTaskValid(r, posts[k].Due(r.now), posts[k].task);
      GrownTwice(m, r, r.AddPost(posts[k]), SizeOfPosts(posts[..k]), SizeOfPost(posts[k]));
    }
  }

  lemma GrownTwice(m: Manager, r: Manager, t: Manager, a: nat, b: nat)
    requires Grown(m, r, a) && Grown(r, t, b)
    ensures Grown(m, t, a + b)
  {
  }

  /** Running the first task: it leaves the pending ones and enters the log. */
  lemma PopValid(m: Manager)
    requires Valid(m) && m.HasTasks()
    ensures Valid(m.(tasks := m.tasks[1..], log := m.log + [Run(m.tasks[0], m.now, m.next)]))
  {
    var first := m.tasks[0];
    assert first in m.tasks;
    var r := m.(tasks := m.tasks[1..], log := m.log + [Run(first, m.now, m.next)]);
    PopComplete(m);
    forall e | e in r.tasks ensures e in m.tasks && Before(first, e) {
      var i :| 0 <= i < |r.tasks| && r.tasks[i] == e;
      assert m.tasks[i + 1] == e;
    }
    assert forall i :: 0 <= i < |m.log| ==> m.log[i] in m.log;
  }

  lemma PopComplete(m: Manager)
    requires Complete(m) && m.tasks != []
    ensures Complete(m.(tasks := m.tasks[1..], log := m.log + [Run(m.tasks[0], m.now, m.next)]))
  {
    assert Numbers(m.tasks) == [m.tasks[0].number] + Numbers(m.tasks[1..]);
    assert RunNumbers(m.log + [Run(m.tasks[0], m.now, m.next)]) == RunNumbers(m.log) + [m.tasks[0].number];
  }

  lemma HandleValid(m: Manager)
    requires Valid(m) && m.HasTasks()
    ensures var r := m.HandleFirstTask();
      Valid(r) && r.now == m.now && TotalSize(r.tasks) < TotalSize(m.tasks) && m.log <= r.log
  {
    PopValid(m);
    AddPostsValid(m.(tasks := m.tasks[1..], log := m.log + [Run(m.tasks[0], m.now, m.next)]), m.tasks[0].task.posts);
  }

  lemma {:induction false} PostsEntered(m: Manager, posts: seq<Post>)
    ensures var r := m.AddPosts(posts);
      && r.now == m.now && r.next == m.next + |posts| && (forall e :: e in m.tasks ==> e in r.tasks)
      && (forall e :: e in r.tasks && e !in m.tasks ==> m.next <= e.number)
    ensures forall i :: 0 <= i < |posts| ==>
      Entry(posts[i].Due(m.now), m.now, m.next + i, posts[i].task) in m.AddPosts(posts).tasks
    decreases |posts|
  {
    hide Manager.AddTask, Post.Due;
    if posts != [] {
      var k := |posts| - 1;
      var a := m.AddPosts(posts[..k]);
      PostsEntered(m, posts[..k]);
      AddTaskMembers(a, posts[k].Due(a.now), posts[k].task);
      AddTaskNext(a, posts[k].Due(a.now), posts[k].task);
      forall i | 0 <= i < |posts|
        ensures Entry(posts[i].Due(m.now), m.now, m.next + i, posts[i].task) in m.AddPosts(posts).tasks
      {
        assert i < k ==> posts[..k][i] == posts[i];
      }
    }
  }

  lemma AddTaskNext(m: Manager, due: int, task: Task)
    ensures m.AddTask(due, task).next == m.next + 1 && m.AddTask(due, task).now == m.now
  {
  }

  /**
   A task that runs at time `x` and posts with a delay of `d` leaves a task due at `x + d`; with a time point it leaves
   one due then. Posts are numbered in their order, nothing else is posted and no other task is gone.
   */
  lemma PostsAreDue(m: Manager, i: nat)
    requires m.HasTasks() && i < |m.tasks[0].task.posts|
    ensures
      var post, r := m.tasks[0].task.posts[i], m.HandleFirstTask();
      && exists e :: e in r.tasks && e.task == post.task && e.posted == m.now && e.number == m.next + i
                     && match post
                        case After(delay, _) => e.due == m.now + delay
                        case At(time, _) => e.due == time
    ensures
      var r := m.HandleFirstTask();
      && r.next == m.next + |m.tasks[0].task.posts|
      && (forall e :: e in m.tasks[1..] ==> e in r.tasks)
      && (forall e :: e in r.tasks && e !in m.tasks[1..] ==> m.next <= e.number)
  {
    hide Manager.AddPosts;
    var posts := m.tasks[0].task.posts;
    PostsEntered(m.(tasks := m.tasks[1..], log := m.log + [Run(m.tasks[0], m.now, m.next)]), posts);
    assert Entry(posts[i].Due(m.now), m.now, m.next + i, posts[i].task) in m.HandleFirstTask().tasks;
  }

  lemma ClockValid(m: Manager, to: int)
    requires Valid(m) && m.now <= to && forall e :: e in m.tasks ==> to <= e.due
    ensures Valid(m.(now := to))
  {
  }

  lemma FirstIsLeast(s: seq<Entry>)
    requires Ordered(s) && s != []
    ensures forall e :: e in s ==> s[0].due <= e.due
  {
    forall e | e in s ensures s[0].due <= e.due {
      var i :| 0 <= i < |s| && s[i] == e;
      assert i > 0 ==> Before(s[0], s[i]);
    }
  }

  /** Every number given out stands in the log exactly once, or belongs to a pending task exactly once. */
  lemma EveryTaskOnce(m: Manager, n: nat)
    requires Valid(m) && n < m.next
    ensures multiset(RunNumbers(m.log))[n] + multiset(Numbers(m.tasks))[n] == 1
  {
    UpToOnce(m.next, n);
  }

  lemma {:induction false} UpToOnce(m: nat, n: nat)
    ensures multiset(UpTo(m))[n] == if n < m then 1 else 0
  {
    if m > 0 {
      UpToOnce(m - 1, n);
      assert UpTo(m) == UpTo(m - 1) + [m - 1];
    }
  }

  class FakeTaskManager {
    var now: int
    var tasks: seq<Entry>
    // Two records of the history: how many tasks were ever posted, and which have run.
    var posted: nat
    var log: seq<Run>

    function Value(): Manager
      reads this
    {
      Manager(now, tasks, posted, log)
    }

    constructor (now: int)
      ensures Value() == Manager(now, [], 0, []) && Valid(Value())
    {
      this.now, tasks, posted, log := now, [], 0, [];
    }

    method AddTask(timePoint: int, task: Task)
      modifies this`tasks, this`posted
      ensures Value() == old(Value()).AddTask(timePoint, task)
    {
      tasks := InsertAt(tasks, Value().Position(timePoint, |tasks|), Entry(timePoint, now, posted, task));
      posted := posted + 1;
    }

    method PostTaskDelayed(delay: nat, task: Task)
      modifies this`tasks, this`posted
      ensures Value() == old(Value()).AddTask(old(now) + delay, task)
    {
      hide Manager.AddTask;
      AddTask(now + delay, task);
    }

    method PostTaskAt(timePoint: int, task: Task)
      modifies this`tasks, this`posted
      ensures Value() == old(Value()).AddTask(timePoint, task)
    {
      hide Manager.AddTask;
      AddTask(timePoint, task);
    }

    /** Runs a task: it posts what it has to post, one by one. */
    method RunTask(task: Task)
      modifies this`tasks, this`posted
      ensures Value() == old(Value()).AddPosts(task.posts)
    {
      hide Manager.AddTask;
      var i := 0;
      while i < |task.posts|
        invariant i <= |task.posts|
        invariant Value() == old(Value()).AddPosts(task.posts[..i])
      {
        assert task.posts[..i + 1][..i] == task.posts[..i];
        match task.posts[i] {
          case After(delay, t) => PostTaskDelayed(delay, t);
          case At(time, t) => PostTaskAt(time, t);
        }
        i := i + 1;
      }
      assert task.posts[..i] == task.posts;
    }

    method HandleFirstTask()
      modifies this
      ensures Value() == old(Value()).HandleFirstTask()
    {
      if !(tasks != [] && tasks[0].due <= now) {
        return;
      }
      var first := tasks[0];
      log := log + [Run(first, now, posted)];
      tasks := tasks[1..];
      RunTask(first.task);
    }

    /** The worker: handles due tasks, posted before or meanwhile, until none is due. */
    method HandleTasks()
      requires Valid(Value())
      modifies this
      ensures Valid(Value()) && now == old(now) && !Value().HasTasks()
      ensures old(log) <= log && TotalSize(tasks) <= old(TotalSize(tasks))
      ensures old(Value().HasTasks()) ==> TotalSize(tasks) < old(TotalSize(tasks))
    {
      hide Numbered, InOrder, Complete;
      while tasks != [] && tasks[0].due <= now
        invariant Valid(Value()) && now == old(now) && old(log) <= log && TotalSize(tasks) <= old(TotalSize(tasks))
        invariant Value() == old(Value()) || TotalSize(tasks) < old(TotalSize(tasks))
        decreases TotalSize(tasks)
      {
        HandleValid(Value());
        HandleFirstTask();
      }
    }

    /**
     Advances the clock by exactly `duration`. If that is not zero, every task due by then has run when the
     call returns, those posted on the way included; each ran at its due time or, if it was posted later, at
     once, and the order was that of `Before` among the tasks known at each moment.
     */
    method AdvanceTime(duration: nat)
      requires Valid(Value())
      modifies this
      ensures Valid(Value()) && now == old(now) + duration
      ensures old(log) <= log
      ensures duration > 0 ==> forall e :: e in tasks ==> now < e.due
      ensures duration == 0 ==> Value() == old(Value())
    {
      hide InOrder, Complete;
      var target := now + duration;
      while now < target
        invariant Valid(Value()) && now <= target && old(log) <= log
        invariant now == target && duration > 0 ==> forall e :: e in tasks ==> now < e.due
        invariant duration == 0 ==> Value() == old(Value())
        decreases TotalSize(tasks), target - now
      {
        if tasks == [] {
          ClockValid(Value(), target);
          now := target;
          return;
        }
        FirstIsLeast(tasks);
        var next := if target < tasks[0].due then target else tasks[0].due;
        if next > now {
          ClockValid(Value(), next);
          now := next;
        }
        HandleTasks();
        if tasks != [] { FirstIsLeast(tasks); }
      }
    }
  }
}
