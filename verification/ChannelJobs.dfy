/** Jobs as the channels see them, and the order in which they are taken from a queue. */
module ChannelJobs {

  datatype Option<+T> = None | Some(value: T)

  /** The full name of a channel, split at its dots: `root.a.b` is `["root", "a", "b"]`. */
  type Path = seq<string>

  /** A job known to the job runner. Two jobs are the same only if they are the same object.
      Times are whole seconds and an eta of 0 means that there is none. */
  class ChannelJob {
    const db: string
    const home: Path  // the full name of the channel the job was created in
    const uuid: string
    const seqno: int
    const created: int
    const priority: int
    ghost const born: nat  // the eta at creation, which the mutable field forgets
    var eta: nat

    constructor (db: string, home: Path, uuid: string, seqno: int, created: int, priority: int, eta: nat)
      ensures this.db == db && this.home == home && this.uuid == uuid && this.seqno == seqno
      ensures this.created == created && this.priority == priority && this.eta == eta && this.born == eta
    {
      this.db, this.home, this.uuid, this.seqno := db, home, uuid, seqno;
      this.created, this.priority, this.eta := created, priority, eta;
      this.born := eta;
    }
  }

  /** `sorting_key_ignoring_eta` of `a` is smaller than that of `b`. */
  predicate KeyLess(a: ChannelJob, b: ChannelJob) {
    || a.priority < b.priority
    || (a.priority == b.priority && a.created < b.created)
    || (a.priority == b.priority && a.created == b.created && a.seqno < b.seqno)
  }

  /** `__lt__`, with the etas of both jobs given: a job with an eta precedes one without. */
  predicate LessAt(a: ChannelJob, aEta: nat, b: ChannelJob, bEta: nat) {
    if aEta != 0 && bEta == 0 then true
    else if aEta == 0 && bEta != 0 then false
    else aEta < bEta || (aEta == bEta && KeyLess(a, b))
  }

  predicate Less(a: ChannelJob, b: ChannelJob)
    reads a, b
  {
    LessAt(a, a.eta, b, b.eta)
  }

  /** `j` is in `s` and no member of `s` sorts before it, etas apart. */
  ghost predicate IsFirst(j: ChannelJob, s: set<ChannelJob>) {
    j in s && forall o :: o in s ==> !KeyLess(o, j)
  }

  /** `j` is waiting and no waiting job sorts before it. */
  ghost predicate IsEarliest(j: ChannelJob, waiting: map<ChannelJob, nat>) {
    j in waiting && forall o :: o in waiting ==> !LessAt(o, waiting[o], j, waiting[j])
  }

  /** Without etas: the smaller priority first, then the older job, then the smaller sequence. */
  lemma KeyOnFields(a: ChannelJob, b: ChannelJob)
    ensures a.priority < b.priority ==> KeyLess(a, b) && !KeyLess(b, a)
    ensures a.priority == b.priority && a.created < b.created ==> KeyLess(a, b) && !KeyLess(b, a)
    ensures a.priority == b.priority && a.created == b.created ==> (KeyLess(a, b) <==> a.seqno < b.seqno)
  {
  }

  /** With etas: a job with an eta first, then the earlier eta, and equal ones by the rest. */
  lemma LessOnFields(a: ChannelJob, aEta: nat, b: ChannelJob, bEta: nat)
    ensures aEta != 0 && (bEta == 0 || aEta < bEta) ==> LessAt(a, aEta, b, bEta) && !LessAt(b, bEta, a, aEta)
    ensures aEta == bEta ==> (LessAt(a, aEta, b, bEta) <==> KeyLess(a, b))
  {
  }

  lemma NotAfterOnFields(a: ChannelJob, b: ChannelJob)
    ensures !KeyLess(b, a) <==>
              || a.priority < b.priority
              || (a.priority == b.priority && a.created < b.created)
              || (a.priority == b.priority && a.created == b.created && a.seqno <= b.seqno)
  {
    KeyOnFields(a, b);
    KeyOnFields(b, a);
  }

  /** The first of some jobs, on their fields. */
  lemma FirstOnFields(j: ChannelJob, s: set<ChannelJob>)
    ensures IsFirst(j, s) <==>
            && j in s
            && forall o :: o in s ==>
                 || j.priority < o.priority
                 || (j.priority == o.priority && j.created < o.created)
                 || (j.priority == o.priority && j.created == o.created && j.seqno <= o.seqno)
  {
    forall o ensures !KeyLess(o, j) <==>
                       || j.priority < o.priority
                       || (j.priority == o.priority && j.created < o.created)
                       || (j.priority == o.priority && j.created == o.created && j.seqno <= o.seqno) {
      KeyOnFields(j, o);
      KeyOnFields(o, j);
    }
  }

  /** The earliest of the waiting jobs, on their etas and then on their fields. */
  lemma EarliestOnFields(j: ChannelJob, waiting: map<ChannelJob, nat>)
    requires forall o :: o in waiting ==> waiting[o] != 0
    ensures IsEarliest(j, waiting) <==>
            && j in waiting
            && forall o :: o in waiting ==>
                 || waiting[j] < waiting[o]
                 || (waiting[j] == waiting[o] && j.priority < o.priority)
                 || (waiting[j] == waiting[o] && j.priority == o.priority && j.created < o.created)
                 || (waiting[j] == waiting[o] && j.priority == o.priority && j.created == o.created
                     && j.seqno <= o.seqno)
  {
    if j in waiting {
      forall o | o in waiting
        ensures !LessAt(o, waiting[o], j, waiting[j]) <==>
                  || waiting[j] < waiting[o]
                  || (waiting[j] == waiting[o] && j.priority < o.priority)
                  || (waiting[j] == waiting[o] && j.priority == o.priority && j.created < o.created)
                  || (waiting[j] == waiting[o] && j.priority == o.priority && j.created == o.created
                      && j.seqno <= o.seqno)
      {
        LessOnFields(j, waiting[j], o, waiting[o]);
        LessOnFields(o, waiting[o], j, waiting[j]);
        KeyOnFields(j, o);
        KeyOnFields(o, j);
      }
    }
  }

  /** The order is a strict weak order: comparing against any third job is consistent. */
  lemma LessIsWeakOrder(a: ChannelJob, aEta: nat, b: ChannelJob, bEta: nat, c: ChannelJob, cEta: nat)
    ensures !LessAt(a, aEta, a, aEta)
    ensures LessAt(a, aEta, b, bEta) ==> LessAt(a, aEta, c, cEta) || LessAt(c, cEta, b, bEta)
    ensures LessAt(a, aEta, b, bEta) ==> !LessAt(b, bEta, a, aEta)
  {
  }

  /** Every non-empty set of jobs has a first one. */
  lemma FirstExists(s: set<ChannelJob>) returns (j: ChannelJob)
    requires s != {}
    ensures IsFirst(j, s)
    decreases s
  {
    var x :| x in s;
    if s == {x} {
      j := x;
    } else {
      var y := FirstExists(s - {x});
      j := if KeyLess(x, y) then x else y;
      forall o | o in s ensures !KeyLess(o, j) {
        assert o == x || o in s - {x};
        LessIsWeakOrder(o, 0, y, 0, x, 0);
        LessIsWeakOrder(o, 0, x, 0, y, 0);
      }
    }
  }

  /** Every non-empty collection of waiting jobs has an earliest one. */
  lemma EarliestExists(waiting: map<ChannelJob, nat>) returns (j: ChannelJob)
    requires waiting.Keys != {}
    ensures IsEarliest(j, waiting)
    decreases waiting.Keys
  {
    var x :| x in waiting.Keys;
    if waiting.Keys == {x} {
      j := x;
    } else {
      var rest := waiting - {x};
      var y :| y in waiting.Keys && y != x;
      assert y in rest.Keys;
      var z := EarliestExists(rest);
      j := if LessAt(x, waiting[x], z, waiting[z]) then x else z;
      forall o | o in waiting ensures !LessAt(o, waiting[o], j, waiting[j]) {
        assert o == x || o in rest;
        LessIsWeakOrder(o, waiting[o], z, waiting[z], x, waiting[x]);
        LessIsWeakOrder(o, waiting[o], x, waiting[x], z, waiting[z]);
      }
    }
  }
}
