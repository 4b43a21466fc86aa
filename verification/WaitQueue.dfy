/** Wait lists as sequences of task numbers, head first: what the linked lists of
    `wait_next` pointers mean. */
module WaitQueue {
  import opened Selection

  ghost predicate InRange(q: seq<nat>, n: nat) {
    forall i :: 0 <= i < |q| ==> q[i] < n
  }

  ghost predicate Distinct(q: seq<nat>) {
    forall i, j :: 0 <= i < j < |q| ==> q[i] != q[j]
  }

  /** Better priority first, and first come first served among equals. */
  predicate Before(a: Tcb, b: Tcb) {
    a.prio < b.prio || (a.prio == b.prio && a.stamp < b.stamp)
  }

  ghost predicate Ordered(tasks: seq<Tcb>, q: seq<nat>)
    requires InRange(q, |tasks|)
  {
    forall i, j :: 0 <= i < j < |q| ==> Before(tasks[q[i]], tasks[q[j]])
  }

  /** Where `wq_insert` stops: in front of the first task of strictly worse priority. */
  function InsertPos(q: seq<nat>, tasks: seq<Tcb>, p: nat): (i: nat)
    requires InRange(q, |tasks|)
    ensures i <= |q|
    ensures forall j :: 0 <= j < i ==> tasks[q[j]].prio <= p
    ensures i < |q| ==> tasks[q[i]].prio > p
  {
    if q == [] || p < tasks[q[0]].prio then 0
    else 1 + InsertPos(q[1..], tasks, p)
  }

  /** `wq_insert`. */
  function Insert(q: seq<nat>, tasks: seq<Tcb>, t: nat): (r: seq<nat>)
    requires InRange(q, |tasks|) && t < |tasks|
    ensures |r| == |q| + 1 && InRange(r, |tasks|)
  {
    var i := InsertPos(q, tasks, tasks[t].prio);
    q[..i] + [t] + q[i..]
  }

  /** The position of `t`, or `|q|` when it is not in `q`. */
  function IndexOf(q: seq<nat>, t: nat): (i: nat)
    ensures i <= |q|
    ensures i < |q| ==> q[i] == t
    ensures forall j :: 0 <= j < i ==> q[j] != t
    ensures t in q <==> i < |q|
  {
    if q == [] || q[0] == t then 0 else 1 + IndexOf(q[1..], t)
  }

  function RemoveAt(q: seq<nat>, i: nat): seq<nat>
    requires i < |q|
  {
    q[..i] + q[i + 1..]
  }

  /** `sched_wait_list_remove`: nothing happens when `t` is not in the list. */
  function Remove(q: seq<nat>, t: nat): seq<nat>
  {
    var i := IndexOf(q, t);
    if i < |q| then RemoveAt(q, i) else q
  }

  lemma InsertMembers(q: seq<nat>, tasks: seq<Tcb>, t: nat)
    requires InRange(q, |tasks|) && t < |tasks|
    ensures forall x :: x in Insert(q, tasks, t) <==> x == t || x in q
    ensures Distinct(q) && t !in q ==> Distinct(Insert(q, tasks, t))
  {
    var i := InsertPos(q, tasks, tasks[t].prio);
    var r := Insert(q, tasks, t);
    assert q == q[..i] + q[i..];
    assert forall j :: 0 <= j < |r| ==> r[j] == if j < i then q[j] else if j == i then t else q[j - 1];
  }

  /** A newly stamped task lands behind its equals and in front of all that are worse. */
  lemma InsertOrdered(q: seq<nat>, tasks: seq<Tcb>, t: nat)
    requires InRange(q, |tasks|) && t < |tasks| && Ordered(tasks, q)
    requires forall i :: 0 <= i < |q| ==> tasks[q[i]].stamp < tasks[t].stamp
    ensures Ordered(tasks, Insert(q, tasks, t))
  {
    var i := InsertPos(q, tasks, tasks[t].prio);
    var r := Insert(q, tasks, t);
    assert forall j :: 0 <= j < |r| ==> r[j] == if j < i then q[j] else if j == i then t else q[j - 1];
    forall j | i <= j < |q| ensures tasks[q[j]].prio > tasks[t].prio {
      assert j == i || Before(tasks[q[i]], tasks[q[j]]);
    }
  }

  lemma RemoveAtMembers(q: seq<nat>, i: nat)
    requires i < |q| && Distinct(q)
    ensures var r := RemoveAt(q, i);
      && Distinct(r)
      && (forall x :: x in r <==> x in q && x != q[i])
  {
    var r := RemoveAt(q, i);
    assert forall j :: 0 <= j < |r| ==> r[j] == if j < i then q[j] else q[j + 1];
    forall x | x in q && x != q[i] ensures x in r {
      var j :| 0 <= j < |q| && q[j] == x;
      assert r[if j < i then j else j - 1] == x;
    }
  }

  lemma RemoveAtOrdered(tasks: seq<Tcb>, q: seq<nat>, i: nat)
    requires i < |q| && InRange(q, |tasks|) && Ordered(tasks, q)
    ensures InRange(RemoveAt(q, i), |tasks|) && Ordered(tasks, RemoveAt(q, i))
  {
    var r := RemoveAt(q, i);
    assert forall j :: 0 <= j < |r| ==> r[j] == if j < i then q[j] else q[j + 1];
  }
}
