/** Sequential histories of a set: what the concurrent sets are shown to be equivalent to. */
module SetHistory {
  import opened Common

  /** One operation, by thread `t`, and its answer. */
  datatype Entry = Entry(t: Tid, op: Op, elem: Elem, res: bool)

  /** The set after the operations of `log`, starting from the empty one. */
  function Played(log: seq<Entry>): set<Elem> {
    if log == [] then {}
    else
      var last := log[|log| - 1];
      After(last.op, last.elem, Played(log[..|log| - 1]))
  }

  /** Every operation of the log gives the answer that a set gives. */
  ghost predicate Legal(log: seq<Entry>) {
    forall i {:trigger log[i]} :: 0 <= i < |log| ==> log[i].res == Answer(log[i].op, log[i].elem, Played(log[..i]))
  }

  /** The entries of thread `t`, in order. */
  function By(log: seq<Entry>, t: Tid): seq<Entry> {
    if log == [] then []
    else
      var last := log[|log| - 1];
      By(log[..|log| - 1], t) + if last.t == t then [last] else []
  }

  lemma Logged(log: seq<Entry>, entry: Entry)
    requires Legal(log) && entry.res == Answer(entry.op, entry.elem, Played(log))
    ensures Legal(log + [entry]) && Played(log + [entry]) == After(entry.op, entry.elem, Played(log))
  {
    var next := log + [entry];
    assert next[..|log|] == log;
    forall i | 0 <= i < |next|
      ensures next[i].res == Answer(next[i].op, next[i].elem, Played(next[..i]))
    {
      if i < |log| {
        assert next[..i] == log[..i] && log[i] == next[i];
      }
    }
  }

  lemma ByLogged(log: seq<Entry>, entry: Entry, t: Tid)
    ensures By(log + [entry], t) == By(log, t) + if entry.t == t then [entry] else []
  {
    assert (log + [entry])[..|log|] == log;
  }

  /** An operation that changes nothing may be logged at any time, with the answer it has then. */
  lemma LoggedRead(log: seq<Entry>, entry: Entry)
    requires Legal(log) && entry.res == Answer(entry.op, entry.elem, Played(log))
    requires entry.op.OpContains? || !entry.res
    ensures Legal(log + [entry]) && Played(log + [entry]) == Played(log)
  {
    Logged(log, entry);
  }
}
